/** The links between layers and the forward step across one link. A
    network's layers live in one sequence; `next` and `previous` are indices
    into it, which stands in for the object references of the source. */
module Chain {
  import opened Results
  import opened Parameters
  import opened Linear
  import opened Layers

  type Net = seq<Layer>

  predicate InRange(o: Option<nat>, n: nat) {
    o.Some? ==> o.value < n
  }

  /** Every link points at a layer of the network. */
  predicate Linked(net: Net) {
    forall k :: 0 <= k < |net| ==> InRange(net[k].next, |net|) && InRange(net[k].previous, |net|)
  }

  /** Links in range and every layer well formed. */
  predicate Valid(net: Net) {
    Linked(net) && forall k :: 0 <= k < |net| ==> WellFormed(net[k])
  }

  /** `net[i].connect(net[j])`: `next` of layer i becomes j, then `previous`
      of layer j becomes i; nothing else changes, not even links that used
      to point at the two layers. */
  function Connect(net: Net, i: nat, j: nat): (r: Net)
    requires i < |net| && j < |net|
    ensures |r| == |net|
    ensures r[i].next == Some(j) && r[j].previous == Some(i)
    ensures i != j ==> r[i].previous == net[i].previous && r[j].next == net[j].next
    ensures forall k :: 0 <= k < |net| && k != i && k != j ==> r[k] == net[k]
    ensures forall k :: 0 <= k < |net| ==> SameContents(r[k], net[k])
    ensures Valid(net) ==> Valid(r)
  {
    var linked := net[i := net[i].(next := Some(j))];
    linked[j := linked[j].(previous := Some(i))]
  }

  /** The result of a forward step: the updated network and the index of the
      layer `run` returns. */
  datatype Step = Step(net: Net, out: nat)

  /** The reads `run` makes are defined: when the next layer has neurons, it
      has biases, and when this layer has neurons too, this layer has weights
      with a row for each of them. */
  predicate ParametersPresent(src: Layer, dst: Layer) {
    |dst.neurons| > 0 ==>
      dst.biases.Some? &&
      (|src.neurons| > 0 ==> src.weights.Some? && |src.weights.value| >= |dst.neurons|)
  }

  /** The next layer's biases, when it has any, reach every one of its neurons. */
  predicate BiasesCoverNext(net: Net, i: nat)
    requires i < |net| && Linked(net)
  {
    net[i].next.Some? && net[net[i].next.value].biases.Some? ==>
      |net[net[i].next.value].biases.value| >= |net[net[i].next.value].neurons|
  }

  function WeightsOrNone(l: Layer): Matrix {
    if l.weights.Some? then l.weights.value else []
  }

  function BiasesOrNone(l: Layer): Vector {
    if l.biases.Some? then l.biases.value else []
  }

  /** `net[i].run()`: every neuron r of the next layer becomes the weighted
      sum of this layer's neurons with weight row r, plus the next layer's
      bias r; the next layer is returned. Reading through a missing `next`,
      weight row or bias vector is a TypeError. */
  function Run(net: Net, i: nat): (res: Result<Step>)
    requires i < |net| && Linked(net) && WellFormed(net[i]) && BiasesCoverNext(net, i)
    ensures net[i].next.None? ==> res == Failure(NullReference)
    ensures net[i].next.Some? ==>
      (res.Success? <==> ParametersPresent(net[i], net[net[i].next.value]))
    ensures res.Failure? ==> res.error == NullReference
    ensures res.Success? ==> res.value.out == net[i].next.value && |res.value.net| == |net|
    ensures res.Success? ==> forall m :: 0 <= m < |net| && m != res.value.out ==> res.value.net[m] == net[m]
    ensures res.Success? ==>
      var k, after := res.value.out, res.value.net[res.value.out];
      && after == net[k].(neurons := after.neurons)
      && |after.neurons| == |net[k].neurons|
      && forall r :: 0 <= r < |after.neurons| ==>
           after.neurons[r] == Dot(net[i].neurons, RowOr(WeightsOrNone(net[i]), r)) + net[k].biases.value[r]
    ensures res.Success? && Valid(net) ==> Valid(res.value.net)
  {
    match net[i].next
    case None => Failure(NullReference)
    case Some(k) =>
      var src, dst := net[i], net[k];
      if !ParametersPresent(src, dst) then Failure(NullReference)
      else
        var n := |dst.neurons|;
        var out := Affine(src.neurons, WeightsOrNone(src), BiasesOrNone(dst), n);
        Success(Step(net[k := dst.(neurons := out)], k))
  }

  // ---------------------------------------------------------------------
  // Properties relating the operations to each other.

  /** Connecting the same pair again rewires identically. */
  lemma ConnectIdempotent(net: Net, i: nat, j: nat)
    requires i < |net| && j < |net|
    ensures Connect(Connect(net, i, j), i, j) == Connect(net, i, j)
  {
  }

  /** `run` reads only the size of the next layer's neurons, never their
      values: repeating it without touching this layer gives the same
      network. */
  lemma {:induction false} RunIdempotent(net: Net, i: nat)
    requires i < |net| && Linked(net) && WellFormed(net[i]) && BiasesCoverNext(net, i)
    requires Run(net, i).Success? && Run(net, i).value.out != i
    ensures var once := Run(net, i).value.net;
      Linked(once) && WellFormed(once[i]) && BiasesCoverNext(once, i) && Run(once, i) == Run(net, i)
  {
    var k := net[i].next.value;
    var once := Run(net, i).value.net;
    assert once[i] == net[i];
    assert Linked(once) by {
      forall m | 0 <= m < |once|
        ensures InRange(once[m].next, |once|) && InRange(once[m].previous, |once|)
      {
        if m != k { assert once[m] == net[m]; }
      }
    }
    var twice := Run(once, i).value.net;
    assert twice[k].neurons == once[k].neurons;
    assert twice == once;
  }

  /** A layer whose neurons are all zero, such as a fresh one, passes on
      exactly the next layer's biases. */
  lemma RunFromZeroInput(net: Net, i: nat)
    requires i < |net| && Linked(net) && WellFormed(net[i]) && BiasesCoverNext(net, i)
    requires forall c :: 0 <= c < |net[i].neurons| ==> net[i].neurons[c] == 0.0
    requires Run(net, i).Success?
    ensures var k := Run(net, i).value.out;
      Run(net, i).value.net[k].neurons == BiasesOrNone(net[k])[..|net[k].neurons|]
  {
    var k := Run(net, i).value.out;
    var out := Run(net, i).value.net[k].neurons;
    forall r | 0 <= r < |out| ensures out[r] == net[k].biases.value[r] {
      DotZero(net[i].neurons, RowOr(WeightsOrNone(net[i]), r));
    }
  }

  /** A layer connected to itself reads the neurons it overwrites, so there
      `run` is not idempotent: one neuron 1 with weight 2 and bias 0 becomes
      2 after one run and 4 after two. */
  lemma RunSelfLoop()
    ensures var net := [Layer([1.0], 1, Some([[2.0]]), Some([0.0]), Some(0), Some(0))];
      && Run(net, 0).Success? && Run(net, 0).value.net[0].neurons == [2.0]
      && Run(Run(net, 0).value.net, 0).Success?
      && Run(Run(net, 0).value.net, 0).value.net[0].neurons == [4.0]
  {
    var net := [Layer([1.0], 1, Some([[2.0]]), Some([0.0]), Some(0), Some(0))];
    assert Dot([1.0], [2.0]) == Dot([], [2.0]) + 1.0 * 2.0 by {
      assert [1.0][..0] == [];
    }
    var once := Run(net, 0).value.net;
    assert once[0].neurons == [2.0];
    assert Dot([2.0], [2.0]) == Dot([], [2.0]) + 2.0 * 2.0 by {
      assert [2.0][..0] == [];
    }
  }
}
