/** N-dimensional arrays as the updater sees them: a shape laid over a
    contiguous span of a shared flat buffer of reals. Two tensors built over
    the same buffer alias each other, which is what a view (a slice or a
    reshape that does not copy) is. */
module Tensors {

  /** Number of elements of an array of the given shape. */
  function Product(shape: seq<nat>): nat
  {
    if shape == [] then 1 else shape[0] * Product(shape[1..])
  }

  /** A tensor: `length` elements starting at `offset` in `data`, in the
      order shared by every tensor it is combined with elementwise. */
  datatype Tensor = Tensor(data: array<real>, offset: nat, length: nat, shape: seq<nat>)
  {
    function Length(): nat
    {
      length
    }

    /** The shape accounts for every element and the view lies inside its
        buffer. */
    predicate Valid()
    {
      length == Product(shape) && offset + length <= data.Length
    }

    /** Position `k` of buffer `a` is one of this tensor's elements. */
    predicate Covers(a: array<real>, k: int)
    {
      data == a && offset <= k < offset + Length()
    }

    /** Element `i` in flat order. */
    function At(i: nat): real
      requires Valid() && i < Length()
      reads data
    {
      data[offset + i]
    }
  }

  /** Writing one tensor can never change the other. */
  predicate Disjoint(s: Tensor, t: Tensor)
  {
    s.data != t.data || s.offset + s.Length() <= t.offset || t.offset + t.Length() <= s.offset
  }

  /** In-place `assign(x)`: every element of `t` becomes `x`; the rest of the
      buffer is untouched. */
  method Fill(t: Tensor, x: real)
    requires t.Valid()
    modifies t.data
    ensures forall i :: 0 <= i < t.Length() ==> t.At(i) == x
    ensures forall k :: 0 <= k < t.data.Length && !t.Covers(t.data, k) ==> t.data[k] == old(t.data[k])
  {
    var n := t.Length();
    var i := 0;
    while i < n
      invariant 0 <= i <= n
      invariant forall j :: 0 <= j < i ==> t.At(j) == x
      invariant forall k :: 0 <= k < t.data.Length && !(t.offset <= k < t.offset + i) ==> t.data[k] == old(t.data[k])
    {
      t.data[t.offset + i] := x;
      i := i + 1;
    }
  }
}
