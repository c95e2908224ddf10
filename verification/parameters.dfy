/** The parameter containers: `Weights`, a matrix with one row per output
    neuron and one column per input neuron, and `Biases`, one entry per output
    neuron. Both are immutable values here; their `populate` and `fillRandom`
    return new containers and leave the receiver as it was. */
module Parameters {

  type Matrix = seq<seq<real>>
  type Vector = seq<real>

  /** `a` has as many rows as `b`, and each row as many entries. */
  predicate SameShape(a: Matrix, b: Matrix) {
    |a| == |b| && forall i :: 0 <= i < |a| ==> |a[i]| == |b[i]|
  }

  /** `data` holds a value at every position of `w` (and may hold more).
      A row of `w` without entries reads nothing, so `data` needs no row
      for it. */
  predicate Covers(data: Matrix, w: Matrix) {
    forall i :: 0 <= i < |w| && |w[i]| > 0 ==> i < |data| && |data[i]| >= |w[i]|
  }

  /** `new Weights(width, height)`: `height` rows of `width` zeros. */
  function NewWeights(width: nat, height: nat): (w: Matrix)
    ensures |w| == height
    ensures forall i :: 0 <= i < height ==>
      |w[i]| == width && forall j :: 0 <= j < width ==> w[i][j] == 0.0
  {
    seq(height, _ => seq(width, _ => 0.0))
  }

  /** The `Weights` object that `Array.prototype.map` returns for the mapped
      rows. `map` allocates its result with `new Weights(len)`, which binds
      `len` to the width and leaves the height undefined; `Array(undefined)`
      has a single slot, which the constructor fills with a row of `len`
      zeros. Mapping rows overwrites that slot, so only a receiver without
      rows shows it: the result is one empty row. */
  function MapResult(rows: Matrix): (r: Matrix)
    ensures |rows| > 0 ==> r == rows
    ensures |rows| == 0 ==> |r| == 1 && r[0] == []
  {
    if |rows| == 0 then [[]] else rows
  }

  /** The rows `populate` maps out of `w`: entry (i, j) is read from `data`. */
  function PopulatedRows(w: Matrix, data: Matrix): Matrix
    requires Covers(data, w)
  {
    seq(|w|, i requires 0 <= i < |w| =>
      seq(|w[i]|, j requires 0 <= j < |w[i]| => data[i][j]))
  }

  /** `Weights.populate(data)`, as written: the receiver's shape filled from
      `data`, read only inside that shape. */
  function PopulateWeights(w: Matrix, data: Matrix): (r: Matrix)
    requires Covers(data, w)
    ensures |w| > 0 ==> SameShape(r, w)
    ensures |w| > 0 ==> forall i, j :: 0 <= i < |w| && 0 <= j < |w[i]| ==> r[i][j] == data[i][j]
    ensures |w| == 0 ==> r == [[]]
  {
    MapResult(PopulatedRows(w, data))
  }

  /** `Weights.populate(data)` as its documentation intends it: the result has
      exactly the receiver's shape, also when the receiver has no rows. */
  function PopulateWeightsIntended(w: Matrix, data: Matrix): (r: Matrix)
    requires Covers(data, w)
    ensures SameShape(r, w)
    ensures forall i, j :: 0 <= i < |w| && 0 <= j < |w[i]| ==> r[i][j] == data[i][j]
  {
    PopulatedRows(w, data)
  }

  /** The rows `fillRandom` maps out of `w`: entry (i, j) is the draw
      `draw(i, j)` of `Math.random`, which the caller supplies. */
  function RandomRows(w: Matrix, draw: (nat, nat) -> real): Matrix {
    seq(|w|, i requires 0 <= i < |w| => seq(|w[i]|, j requires 0 <= j => draw(i, j)))
  }

  /** `Weights.fillRandom()`, as written. */
  function FillRandomWeights(w: Matrix, draw: (nat, nat) -> real): (r: Matrix)
    ensures |w| > 0 ==> SameShape(r, w)
    ensures |w| > 0 ==> forall i, j :: 0 <= i < |w| && 0 <= j < |w[i]| ==> r[i][j] == draw(i, j)
    ensures |w| == 0 ==> r == [[]]
    ensures (forall i, j :: 0.0 <= draw(i, j) < 1.0) ==> forall row <- r, x <- row :: 0.0 <= x < 1.0
  {
    MapResult(RandomRows(w, draw))
  }

  /** `Weights.fillRandom()` as intended: exactly the receiver's shape, also
      when the receiver has no rows. */
  function FillRandomWeightsIntended(w: Matrix, draw: (nat, nat) -> real): (r: Matrix)
    ensures SameShape(r, w)
    ensures forall i, j :: 0 <= i < |w| && 0 <= j < |w[i]| ==> r[i][j] == draw(i, j)
    ensures (forall i, j :: 0.0 <= draw(i, j) < 1.0) ==> forall row <- r, x <- row :: 0.0 <= x < 1.0
  {
    RandomRows(w, draw)
  }

  /** `new Biases(height)`: `height` zeros. */
  function NewBiases(height: nat): (b: Vector)
    ensures |b| == height
    ensures forall i :: 0 <= i < height ==> b[i] == 0.0
  {
    seq(height, _ => 0.0)
  }

  /** `Biases.populate(data)`: the receiver's length filled from `data`. */
  function PopulateBiases(b: Vector, data: Vector): (r: Vector)
    requires |data| >= |b|
    ensures |r| == |b|
    ensures forall i :: 0 <= i < |b| ==> r[i] == data[i]
  {
    data[..|b|]
  }

  /** `Biases.fillRandom()`: entry i becomes `draw(i) * 2 - 1`, so draws in
      [0, 1) give biases in [-1, 1). */
  function FillRandomBiases(b: Vector, draw: nat -> real): (r: Vector)
    ensures |r| == |b|
    ensures forall i :: 0 <= i < |b| ==> r[i] == draw(i) * 2.0 - 1.0
    ensures (forall i :: 0.0 <= draw(i) < 1.0) ==> forall x <- r :: -1.0 <= x < 1.0
  {
    seq(|b|, i requires 0 <= i => draw(i) * 2.0 - 1.0)
  }

  // ---------------------------------------------------------------------
  // Properties relating the operations to each other.

  /** Populating from the receiver's own entries gives the receiver back. */
  lemma PopulateWeightsSelf(w: Matrix)
    requires |w| > 0
    ensures Covers(w, w) && PopulateWeights(w, w) == w
  {
    var r := PopulateWeights(w, w);
    assert |r| == |w|;
    forall i | 0 <= i < |w| ensures r[i] == w[i] {
      assert |r[i]| == |w[i]|;
    }
  }

  /** `populate` never reads outside the receiver's shape: data that agree
      inside that shape give the same result. */
  lemma PopulateWeightsIgnoresExtraData(w: Matrix, d1: Matrix, d2: Matrix)
    requires Covers(d1, w) && Covers(d2, w)
    requires forall i, j :: 0 <= i < |w| && 0 <= j < |w[i]| ==> d1[i][j] == d2[i][j]
    ensures PopulateWeights(w, d1) == PopulateWeights(w, d2)
  {
    var r1, r2 := PopulatedRows(w, d1), PopulatedRows(w, d2);
    forall i | 0 <= i < |w| ensures r1[i] == r2[i] {
      assert |r1[i]| == |r2[i]|;
    }
    assert r1 == r2;
  }

  /** Populating a fresh zero matrix keeps the constructor's shape. */
  lemma PopulateNewWeightsShape(width: nat, height: nat, data: Matrix)
    requires height > 0
    requires Covers(data, NewWeights(width, height))
    ensures var r := PopulateWeights(NewWeights(width, height), data);
      |r| == height && forall i :: 0 <= i < height ==> |r[i]| == width
  {
  }

  /** `fillRandom` keeps the receiver's shape once it has a row. */
  lemma FillRandomWeightsShape(w: Matrix, draw: (nat, nat) -> real)
    requires |w| > 0
    ensures SameShape(FillRandomWeights(w, draw), w)
    ensures SameShape(FillRandomWeights(FillRandomWeights(w, draw), draw), w)
  {
  }

  /** The zero-row case: `populate` and `fillRandom` on `new Weights(3, 0)`
      return one empty row instead of an empty matrix. */
  lemma ZeroRowsQuirk(draw: (nat, nat) -> real)
    ensures NewWeights(3, 0) == []
    ensures PopulateWeights(NewWeights(3, 0), []) == [[]]
    ensures FillRandomWeights(NewWeights(3, 0), draw) == [[]]
    ensures !SameShape(FillRandomWeights(NewWeights(3, 0), draw), NewWeights(3, 0))
    ensures PopulateWeightsIntended(NewWeights(3, 0), []) == []
  {
  }

  /** Away from the zero-row case the intended and the written `populate`
      agree. */
  lemma PopulateIntendedAgrees(w: Matrix, data: Matrix)
    requires Covers(data, w) && |w| > 0
    ensures PopulateWeightsIntended(w, data) == PopulateWeights(w, data)
  {
  }

  /** Away from the zero-row case the intended and the written `fillRandom`
      agree. */
  lemma FillRandomIntendedAgrees(w: Matrix, draw: (nat, nat) -> real)
    requires |w| > 0
    ensures FillRandomWeightsIntended(w, draw) == FillRandomWeights(w, draw)
  {
  }

  /** Populating biases from their own entries gives them back. */
  lemma PopulateBiasesSelf(b: Vector)
    ensures PopulateBiases(b, b) == b
  {
  }

  /** Populating a fresh bias vector of length h takes exactly the first h
      entries of `data`. */
  lemma PopulateNewBiases(h: nat, data: Vector)
    requires |data| >= h
    ensures PopulateBiases(NewBiases(h), data) == data[..h]
  {
  }

  /** A receiver whose rows have no entries reads no data at all:
      `new Weights(0, 2).populate([])` is two empty rows. */
  lemma PopulateZeroWidth()
    ensures Covers([], NewWeights(0, 2))
    ensures PopulateWeights(NewWeights(0, 2), []) == [[], []]
  {
    var r := PopulateWeights(NewWeights(0, 2), []);
    assert |r| == 2 && r[0] == [] && r[1] == [];
  }
}
