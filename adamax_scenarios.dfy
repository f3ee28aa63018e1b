/** Callers of the updater, proved from its contracts alone: checkpoint and
    restore, re-binding a buffer, aliasing through a view, the first step
    from a zeroed state, and the two ways of using it too early. */
module AdaMaxScenarios {
  import opened Tensors
  import opened AdaMaxMath
  import opened Learning

  /** Restoring the map a checkpoint took is accepted and leaves the state
      as it was, because the map holds the live tensors. */
  method CheckpointRoundTrip(up: AdaMaxUpdater) returns (outcome: Outcome)
    requires up.Valid()
    modifies up
    ensures outcome == Normal
    ensures up.m == old(up.m) && up.u == old(up.u) && up.gradientReshapeOrder == old(up.gradientReshapeOrder)
  {
    var state := up.GetState();
    outcome := up.SetState(state, false);
  }

  /** A map that lacks the "V" entry is refused and the state is kept. */
  method MissingKeyRefused(up: AdaMaxUpdater, t: Tensor) returns (outcome: Outcome)
    requires up.Valid() && t.Valid()
    modifies up
    ensures outcome.Thrown? && outcome.exception.IllegalStateException?
    ensures up.m == old(up.m) && up.u == old(up.u)
  {
    outcome := up.SetState(map[M_STATE := Some(t)], false);
  }

  /** Binding the same buffer twice gives the same two views both times. */
  method RebindKeepsLayout(up: AdaMaxUpdater, viewArray: Tensor, gradientShape: seq<nat>, order: char)
    returns (first: Outcome, second: Outcome, mView: Option<Tensor>, uView: Option<Tensor>)
    requires up.Valid() && viewArray.Valid() && IsRowVector(viewArray.shape)
    requires viewArray.Length() == 2 * Product(gradientShape)
    modifies up, viewArray.data
    ensures first == Normal && second == Normal
    ensures up.m == mView && up.u == uView
    ensures mView == Some(Tensor(viewArray.data, viewArray.offset, Product(gradientShape), gradientShape))
    ensures uView == Some(Tensor(viewArray.data, viewArray.offset + Product(gradientShape), Product(gradientShape), gradientShape))
  {
    ViewHalvesPartition(viewArray, gradientShape);
    first := up.SetStateViewArray(viewArray, gradientShape, order, false);
    mView, uView := up.m, up.u;
    second := up.SetStateViewArray(viewArray, gradientShape, order, false);
  }

  /** After a zero-filling bind, a value written through `m` shows in the
      caller's buffer and leaves every element of `u` at zero. */
  method WriteThroughM(up: AdaMaxUpdater, viewArray: Tensor, gradientShape: seq<nat>, j: nat, x: real)
    requires up.Valid() && viewArray.Valid() && IsRowVector(viewArray.shape)
    requires viewArray.Length() == 2 * Product(gradientShape) && j < Product(gradientShape)
    modifies up, viewArray.data
    ensures up.Bound() && up.u.value.Valid() && up.m.value.Valid() && up.m.value.Length() == Product(gradientShape)
    ensures viewArray.At(j) == x && up.m.value.At(j) == x
    ensures forall i :: 0 <= i < up.u.value.Length() ==> up.u.value.At(i) == 0.0
  {
    ViewHalvesPartition(viewArray, gradientShape);
    var outcome := up.SetStateViewArray(viewArray, gradientShape, 'c', true);
    var M, U := up.m.value, up.u.value;
    assert Disjoint(M, U);
    label Bound:
    M.data[M.offset + j] := x;
    forall i | 0 <= i < U.Length()
      ensures U.At(i) == 0.0
    {
      assert U.offset + i != M.offset + j;
      assert U.At(i) == old@Bound(U.At(i));
    }
  }

  /** The reverse direction: a value written through `u` shows in the second
      half of the caller's buffer and leaves every element of `m` at zero. */
  method WriteThroughU(up: AdaMaxUpdater, viewArray: Tensor, gradientShape: seq<nat>, j: nat, x: real)
    requires up.Valid() && viewArray.Valid() && IsRowVector(viewArray.shape)
    requires viewArray.Length() == 2 * Product(gradientShape) && j < Product(gradientShape)
    modifies up, viewArray.data
    ensures up.Bound() && up.u.value.Valid() && up.m.value.Valid() && up.u.value.Length() == Product(gradientShape)
    ensures viewArray.At(Product(gradientShape) + j) == x && up.u.value.At(j) == x
    ensures forall i :: 0 <= i < up.m.value.Length() ==> up.m.value.At(i) == 0.0
  {
    ViewHalvesPartition(viewArray, gradientShape);
    var outcome := up.SetStateViewArray(viewArray, gradientShape, 'c', true);
    var M, U := up.m.value, up.u.value;
    assert Disjoint(M, U);
    label Bound:
    U.data[U.offset + j] := x;
    forall i | 0 <= i < M.Length()
      ensures M.At(i) == 0.0
    {
      assert M.offset + i != U.offset + j;
      assert M.At(i) == old@Bound(M.At(i));
    }
  }

  /** Stepping an updater that was never bound throws and changes nothing. */
  method ApplyBeforeBinding(gradient: Tensor) returns (outcome: Outcome)
    requires gradient.Valid()
    modifies gradient.data
    ensures outcome.Thrown? && outcome.exception.IllegalStateException?
    ensures unchanged(gradient.data)
  {
    var up := new AdaMaxUpdater(0.9, 0.999, 0.00000001, (iteration: int, epoch: int) => 0.001);
    outcome := up.ApplyUpdater(gradient, 0, 0);
  }

  /** The first step from a zeroed buffer with beta1 = 0.9, beta2 = 0.999,
      epsilon = 1e-8 and learning rate 0.001: m = 0.1 g, u = |g| + Delta,
      the gradient becomes 0.1 g * 0.01 / u, and no element of it reaches
      the learning rate in magnitude. */
  method FirstStepFromZeroedBuffer(gradient: Tensor) returns (outcome: Outcome)
    requires gradient.Valid()
    modifies gradient.data
    ensures outcome == Normal
    ensures forall j :: 0 <= j < gradient.Length() ==>
      gradient.At(j) == ParameterDelta(0.1 * old(gradient.At(j)), 0.01, Abs(old(gradient.At(j))) + Delta)
      && Abs(gradient.At(j)) < 0.001
  {
    var n := gradient.Length();
    var up := new AdaMaxUpdater(0.9, 0.999, 0.00000001, (iteration: int, epoch: int) => 0.001);
    var buffer := new real[2 * n];
    var viewArray := Tensor(buffer, 0, 2 * n, [1, 2 * n]);
    assert Product([1, 2 * n]) == 2 * n by {
      assert [2 * n][1..] == [];
      assert Product([2 * n]) == 2 * n;
      assert [1, 2 * n][1..] == [2 * n];
    }
    ViewHalvesPartition(viewArray, gradient.shape);
    var bound := up.SetStateViewArray(viewArray, gradient.shape, 'c', true);
    assert up.Bound() && up.Compatible(gradient);
    outcome := up.ApplyUpdater(gradient, 0, 0);
    FirstStepSize();
    forall j | 0 <= j < n
      ensures gradient.At(j) == ParameterDelta(0.1 * old(gradient.At(j)), 0.01, Abs(old(gradient.At(j))) + Delta)
      ensures Abs(gradient.At(j)) < 0.001
    {
      var g := old(gradient.At(j));
      FirstStepFromZero(0.9, 0.999, g);
      FirstUpdateBelowLearningRate(0.9, 0.999, 0.00000001, 0.001, g);
    }
  }
}
