/** The AdaMax gradient updater: two state tensors `m` (moving average of the
    gradient) and `u` (exponentially weighted infinity norm), bound either
    from a state map or as two halves of one flat buffer owned by the caller,
    and a step that updates both in place and overwrites the caller's
    gradient with the parameter delta. */
module Learning {
  import opened Tensors
  import opened AdaMaxMath

  /** A Java reference that may be null. */
  datatype Option<T> = None | Some(value: T)

  datatype Exception =
    | IllegalStateException(message: string)
    | IllegalArgumentException(message: string)

  /** How a call ended: normally, or by throwing. */
  datatype Outcome = Normal | Thrown(exception: Exception)

  /** Keys of the state map; the key of `u` is "V". */
  const M_STATE: string := "M"
  const U_STATE: string := "V"

  const BadKeysMessage: string := "State map should contain only keys [M,V]"
  const NotRowVectorMessage: string := "Invalid input: expect row vector input"
  const ReshapeMessage: string := "Could not correctly reshape gradient view arrays"
  const UninitializedMessage: string := "Updater has not been initialized with view state"

  /** The key-set test `setState` applies to an injected map. */
  predicate KeysAccepted<V>(stateMap: map<string, V>)
  {
    M_STATE in stateMap && U_STATE in stateMap && |stateMap| == 2
  }

  /** The test accepts exactly the maps whose key set is {"M", "V"}. */
  lemma KeysAcceptedExactly<V>(stateMap: map<string, V>)
    ensures KeysAccepted(stateMap) <==> stateMap.Keys == {M_STATE, U_STATE}
  {
    var both := {M_STATE, U_STATE};
    assert M_STATE != U_STATE by {
      assert M_STATE[0] != U_STATE[0];
    }
    assert |both| == 2;
    if KeysAccepted(stateMap) {
      assert both <= stateMap.Keys;
      var rest := stateMap.Keys - both;
      assert stateMap.Keys == both + rest;
      assert |stateMap.Keys| == |both| + |rest|;
      assert rest == {};
    }
  }

  /** Every tensor an injected state map holds is a well-formed view. */
  predicate WellFormedState(stateMap: map<string, Option<Tensor>>)
  {
    forall k :: k in stateMap && stateMap[k].Some? ==> stateMap[k].value.Valid()
  }

  /** Row vector: a two-dimensional array with a single row. */
  predicate IsRowVector(shape: seq<nat>)
  {
    |shape| == 2 && shape[0] == 1
  }

  /** Reshaping the `length` elements at `offset` of `data` without copying:
      possible exactly when the shape has that many elements. */
  function ReshapeNoCopy(data: array<real>, offset: nat, length: nat, shape: seq<nat>): Option<Tensor>
  {
    if length == Product(shape) then Some(Tensor(data, offset, length, shape)) else None
  }

  /** Binding a buffer succeeds exactly when it holds two arrays of the
      gradient's shape, and then the two views are disjoint, lie inside the
      buffer and together cover all of it, `m` before `u`. */
  lemma ViewHalvesPartition(viewArray: Tensor, gradientShape: seq<nat>)
    requires viewArray.Valid()
    ensures var len := viewArray.Length();
      (ReshapeNoCopy(viewArray.data, viewArray.offset, len / 2, gradientShape).Some? &&
       ReshapeNoCopy(viewArray.data, viewArray.offset + len / 2, len - len / 2, gradientShape).Some?)
      <==> len == 2 * Product(gradientShape)
    ensures viewArray.Length() == 2 * Product(gradientShape) ==>
      var mView := Tensor(viewArray.data, viewArray.offset, viewArray.Length() / 2, gradientShape);
      var uView := Tensor(viewArray.data, viewArray.offset + viewArray.Length() / 2, viewArray.Length() / 2, gradientShape);
      && mView.Valid() && uView.Valid() && Disjoint(mView, uView)
      && uView.offset == mView.offset + mView.Length()
      && forall k :: viewArray.Covers(viewArray.data, k) <==> mView.Covers(viewArray.data, k) || uView.Covers(viewArray.data, k)
  {
  }

  class AdaMaxUpdater {
    const beta1: real
    const beta2: real
    const epsilon: real
    /** The learning-rate schedule, by iteration and epoch. */
    const learningRate: (int, int) -> real

    var m: Option<Tensor>
    var u: Option<Tensor>
    var gradientReshapeOrder: char

    /** The state tensors are views inside their buffers. */
    predicate Valid()
      reads this
    {
      (m.Some? ==> m.value.Valid()) && (u.Some? ==> u.value.Valid())
    }

    predicate Bound()
      reads this
    {
      m.Some? && u.Some?
    }

    /** The buffers the state tensors live in. */
    function StateArrays(): set<array<real>>
      reads this
    {
      (if m.Some? then {m.value.data} else {}) + (if u.Some? then {u.value.data} else {})
    }

    /** A gradient the bound state can be combined with elementwise: same
        length, and no two of gradient, `m` and `u` share memory. */
    predicate Compatible(gradient: Tensor)
      reads this
      requires Bound()
    {
      && m.value.Length() == gradient.Length() && u.value.Length() == gradient.Length()
      && Disjoint(m.value, u.value) && Disjoint(m.value, gradient) && Disjoint(u.value, gradient)
    }

    constructor (beta1: real, beta2: real, epsilon: real, learningRate: (int, int) -> real)
      ensures this.beta1 == beta1 && this.beta2 == beta2 && this.epsilon == epsilon
      ensures this.learningRate == learningRate
      ensures m == None && u == None && gradientReshapeOrder == 0 as char
      ensures Valid() && !Bound()
    {
      this.beta1, this.beta2, this.epsilon := beta1, beta2, epsilon;
      this.learningRate := learningRate;
      m, u := None, None;
      gradientReshapeOrder := 0 as char;
    }

    /** Detached binding: takes both tensors from a map whose key set must
        be exactly {"M", "V"}. */
    method SetState(stateMap: map<string, Option<Tensor>>, initialize: bool) returns (outcome: Outcome)
      requires Valid() && WellFormedState(stateMap)
      modifies this
      ensures Valid()
      ensures outcome == if KeysAccepted(stateMap) then Normal else Thrown(IllegalStateException(BadKeysMessage))
      ensures outcome.Normal? ==> m == stateMap[M_STATE] && u == stateMap[U_STATE]
      ensures outcome.Thrown? ==> m == old(m) && u == old(u)
      ensures gradientReshapeOrder == old(gradientReshapeOrder)
    {
      if !(M_STATE in stateMap) || !(U_STATE in stateMap) || |stateMap| != 2 {
        return Thrown(IllegalStateException(BadKeysMessage));
      }
      m := stateMap[M_STATE];
      u := stateMap[U_STATE];
      outcome := Normal;
    }

    /** The state as a map, holding the live tensors rather than copies. */
    method GetState() returns (r: map<string, Option<Tensor>>)
      requires Valid()
      ensures r.Keys == {M_STATE, U_STATE} && KeysAccepted(r) && WellFormedState(r)
      ensures r[M_STATE] == m && r[U_STATE] == u
    {
      r := map[M_STATE := m, U_STATE := u];
      KeysAcceptedExactly(r);
    }

    /** View binding: the caller's row vector, zero-filled if asked, is split
        into `[0, len/2)` for `m` and `[len/2, len)` for `u`, each reshaped
        to the gradient's shape without copying. On a failed reshape both
        fields still take the reshape results (the failed one is null) and
        the zero fill has already happened. */
    method SetStateViewArray(viewArray: Tensor, gradientShape: seq<nat>, gradientOrder: char, initialize: bool)
      returns (outcome: Outcome)
      requires Valid() && viewArray.Valid()
      modifies this, viewArray.data
      ensures Valid()
      ensures !IsRowVector(viewArray.shape) ==>
        && outcome == Thrown(IllegalArgumentException(NotRowVectorMessage))
        && m == old(m) && u == old(u) && gradientReshapeOrder == old(gradientReshapeOrder)
        && unchanged(viewArray.data)
      ensures IsRowVector(viewArray.shape) ==>
        var len := viewArray.Length();
        && m == ReshapeNoCopy(viewArray.data, viewArray.offset, len / 2, gradientShape)
        && u == ReshapeNoCopy(viewArray.data, viewArray.offset + len / 2, len - len / 2, gradientShape)
        && outcome == (if Bound() then Normal else Thrown(IllegalStateException(ReshapeMessage)))
        && gradientReshapeOrder == (if Bound() then gradientOrder else old(gradientReshapeOrder))
        && forall i :: 0 <= i < len ==> viewArray.At(i) == if initialize then 0.0 else old(viewArray.At(i))
      ensures initialize && outcome.Normal? ==>
        (forall i :: 0 <= i < m.value.Length() ==> m.value.At(i) == 0.0) &&
        (forall i :: 0 <= i < u.value.Length() ==> u.value.At(i) == 0.0)
      ensures !initialize ==> unchanged(viewArray.data)
      ensures forall k :: 0 <= k < viewArray.data.Length && !viewArray.Covers(viewArray.data, k) ==>
        viewArray.data[k] == old(viewArray.data[k])
    {
      if !IsRowVector(viewArray.shape) {
        return Thrown(IllegalArgumentException(NotRowVectorMessage));
      }
      if initialize {
        Fill(viewArray, 0.0);
      }
      var len := viewArray.Length();
      m := ReshapeNoCopy(viewArray.data, viewArray.offset, len / 2, gradientShape);
      u := ReshapeNoCopy(viewArray.data, viewArray.offset + len / 2, len - len / 2, gradientShape);
      if m.None? || u.None? {
        return Thrown(IllegalStateException(ReshapeMessage));
      }
      gradientReshapeOrder := gradientOrder;
      outcome := Normal;
      if initialize {
        forall i | 0 <= i < m.value.Length()
          ensures m.value.At(i) == 0.0
        {
          assert m.value.At(i) == viewArray.At(i);
        }
        forall i | 0 <= i < u.value.Length()
          ensures u.value.At(i) == 0.0
        {
          assert u.value.At(i) == viewArray.At(len / 2 + i);
        }
      }
    }

    /** One AdaMax step. Refuses to run on unbound state; otherwise, for
        every element, `m` becomes the moving average, `u` the decayed
        infinity norm plus `Delta`, and the gradient `m * alpha / u` with the
        new `m` and `u`. Nothing outside the three views changes. */
    method ApplyUpdater(gradient: Tensor, iteration: nat, epoch: int) returns (outcome: Outcome)
      requires Valid() && gradient.Valid()
      requires Bound() ==> Compatible(gradient)
      modifies gradient.data, StateArrays()
      ensures Valid() && m == old(m) && u == old(u) && gradientReshapeOrder == old(gradientReshapeOrder)
      ensures outcome == if Bound() then Normal else Thrown(IllegalStateException(UninitializedMessage))
      ensures !Bound() ==> unchanged(gradient.data) && forall a :: a in StateArrays() ==> unchanged(a)
      ensures Bound() ==>
        var M, U := m.value, u.value;
        var alpha := Alpha(learningRate(iteration, epoch), beta1, epsilon, iteration);
        && (forall j :: 0 <= j < gradient.Length() ==>
              M.At(j) == MomentStep(beta1, old(M.At(j)), old(gradient.At(j))))
        && (forall j :: 0 <= j < gradient.Length() ==>
              U.At(j) == NormStep(beta2, old(U.At(j)), old(gradient.At(j))) && U.At(j) >= Delta)
        && (forall j :: 0 <= j < gradient.Length() ==>
              gradient.At(j) == ParameterDelta(M.At(j), alpha, U.At(j)))
        && Untouched(gradient.data, gradient, M, U)
        && Untouched(M.data, gradient, M, U)
        && Untouched(U.data, gradient, M, U)
    {
      if m.None? || u.None? {
        return Thrown(IllegalStateException(UninitializedMessage));
      }
      var alpha := Alpha(learningRate(iteration, epoch), beta1, epsilon, iteration);
      UpdateAll(gradient, m.value, u.value, alpha);
      outcome := Normal;
    }

    /** The elementwise pass over all of `m`, `u` and the gradient. */
    method UpdateAll(gradient: Tensor, M: Tensor, U: Tensor, alpha: real)
      requires gradient.Valid() && M.Valid() && U.Valid()
      requires M.Length() == gradient.Length() && U.Length() == gradient.Length()
      requires Disjoint(M, U) && Disjoint(M, gradient) && Disjoint(U, gradient)
      modifies gradient.data, M.data, U.data
      ensures forall j :: 0 <= j < gradient.Length() ==>
        M.At(j) == MomentStep(beta1, old(M.At(j)), old(gradient.At(j)))
      ensures forall j :: 0 <= j < gradient.Length() ==>
        U.At(j) == NormStep(beta2, old(U.At(j)), old(gradient.At(j))) && U.At(j) >= Delta
      ensures forall j :: 0 <= j < gradient.Length() ==>
        gradient.At(j) == ParameterDelta(M.At(j), alpha, U.At(j))
      ensures Untouched(gradient.data, gradient, M, U)
      ensures Untouched(M.data, gradient, M, U)
      ensures Untouched(U.data, gradient, M, U)
    {
      var n := gradient.Length();
      var i := 0;
      while i < n
        invariant 0 <= i <= n
        invariant forall j :: 0 <= j < i ==> M.At(j) == MomentStep(beta1, old(M.At(j)), old(gradient.At(j)))
        invariant forall j :: 0 <= j < i ==> U.At(j) == NormStep(beta2, old(U.At(j)), old(gradient.At(j)))
        invariant forall j :: 0 <= j < i ==> U.At(j) > 0.0 && gradient.At(j) == ParameterDelta(M.At(j), alpha, U.At(j))
        invariant forall j :: i <= j < n ==> M.At(j) == old(M.At(j))
        invariant forall j :: i <= j < n ==> U.At(j) == old(U.At(j))
        invariant forall j :: i <= j < n ==> gradient.At(j) == old(gradient.At(j))
        invariant Untouched(gradient.data, gradient, M, U)
        invariant Untouched(M.data, gradient, M, U)
        invariant Untouched(U.data, gradient, M, U)
      {
        UpdateElement(gradient, M, U, i, alpha);
        i := i + 1;
      }
    }

    /** The step for element `i` alone: writes element `i` of `m`, `u` and
        the gradient, and nothing else. */
    method UpdateElement(gradient: Tensor, M: Tensor, U: Tensor, i: nat, alpha: real)
      requires gradient.Valid() && M.Valid() && U.Valid()
      requires M.Length() == gradient.Length() && U.Length() == gradient.Length() && i < gradient.Length()
      requires Disjoint(M, U) && Disjoint(M, gradient) && Disjoint(U, gradient)
      modifies gradient.data, M.data, U.data
      ensures M.At(i) == MomentStep(beta1, old(M.At(i)), old(gradient.At(i)))
      ensures U.At(i) == NormStep(beta2, old(U.At(i)), old(gradient.At(i)))
      ensures gradient.At(i) == ParameterDelta(M.At(i), alpha, U.At(i))
      ensures forall j :: 0 <= j < gradient.Length() && j != i ==>
        M.At(j) == old(M.At(j)) && U.At(j) == old(U.At(j)) && gradient.At(j) == old(gradient.At(j))
      ensures Untouched(gradient.data, gradient, M, U)
      ensures Untouched(M.data, gradient, M, U)
      ensures Untouched(U.data, gradient, M, U)
    {
      var g := gradient.At(i);
      var mi := MomentStep(beta1, M.At(i), g);
      var ui := NormStep(beta2, U.At(i), g);
      M.data[M.offset + i] := mi;
      U.data[U.offset + i] := ui;
      gradient.data[gradient.offset + i] := ParameterDelta(mi, alpha, ui);
    }
  }

  /** Every position of buffer `a` outside the three views still holds what
      it held before the step. */
  twostate predicate Untouched(a: array<real>, g: Tensor, M: Tensor, U: Tensor)
    reads a
  {
    forall k :: 0 <= k < a.Length && !g.Covers(a, k) && !M.Covers(a, k) && !U.Covers(a, k) ==> a[k] == old(a[k])
  }
}
