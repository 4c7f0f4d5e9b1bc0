// Shapes of tensors (src/tensor/shape.cc, include/deepx_core/tensor/shape.h): at most eight
// dimensions and their product, of which one dimension may be left open as -1.
module Shapes {
  import opened Basics

  const DIM_ANY: int := -1
  const MAX_RANK: nat := 8

  // ---------------------------------------------------------------------------------------
  // Dimensions
  // ---------------------------------------------------------------------------------------

  function Product(dims: seq<int>): int {
    if dims == [] then 1 else Product(dims[..|dims| - 1]) * dims[|dims| - 1]
  }

  /** The number of elements: a shape without dimensions has none. */
  function Total(dims: seq<int>): int {
    if dims == [] then 0 else Product(dims)
  }

  function OpenDims(dims: seq<int>): nat {
    if dims == [] then 0
    else OpenDims(dims[..|dims| - 1]) + if dims[|dims| - 1] == DIM_ANY then 1 else 0
  }

  /** The quotient and remainder of the language: rounded toward zero. */
  function Quotient(a: int, b: int): int
    requires b != 0
  {
    if a >= 0 then a / b else -((-a) / b)
  }

  function Remainder(a: int, b: int): int
    requires b != 0
  {
    a - Quotient(a, b) * b
  }

  lemma RemainderZero(a: int, b: int)
    requires b != 0
    ensures Remainder(a, b) == 0 <==> exists q: int :: q * b == a
    ensures Remainder(a, b) == 0 ==> Quotient(a, b) * b == a
  {
    if q: int :| q * b == a {
      if a >= 0 {
        DivisionExact(a, b, q);
      } else {
        assert (-q) * b == -a;
        DivisionExact(-a, b, -q);
      }
    }
  }

  lemma DivisionExact(a: int, b: int, q: int)
    requires b != 0 && a >= 0 && q * b == a
    ensures a / b == q
  {
    var r := a / b;
    assert a == r * b + a % b && 0 <= a % b < if b > 0 then b else -b;
    assert (q - r) * b == a % b;
    Multiples(q - r, b);
  }

  lemma Multiples(k: int, b: int)
    ensures k >= 1 && b > 0 ==> k * b >= b
    ensures k >= 1 && b < 0 ==> k * b <= b
    ensures k <= -1 && b > 0 ==> k * b <= -b
    ensures k <= -1 && b < 0 ==> k * b >= -b
  {
    if k >= 1 && b > 0 {
      assert (k - 1) * b >= 0;
    } else if k >= 1 && b < 0 {
      assert (k - 1) * (-b) >= 0;
    } else if k <= -1 && b > 0 {
      assert (-k - 1) * b >= 0;
    } else if k <= -1 && b < 0 {
      assert (-k - 1) * (-b) >= 0;
    }
  }

  lemma {:induction false} ProductJoin(a: seq<int>, b: seq<int>)
    ensures Product(a + b) == Product(a) * Product(b)
    decreases |b|
  {
    if b == [] {
      assert a + b == a;
    } else {
      assert (a + b)[..|a + b| - 1] == a + b[..|b| - 1];
      ProductJoin(a, b[..|b| - 1]);
      var p, q, d := Product(a), Product(b[..|b| - 1]), b[|b| - 1];
      assert (p * q) * d == p * (q * d);
    }
  }

  lemma ProductAround(dims: seq<int>, k: nat, d: int)
    requires k < |dims|
    ensures Product(dims[k := d]) == Product(dims[..k]) * Product(dims[k + 1..]) * d
  {
    var a, b := dims[..k], dims[k + 1..];
    assert dims[k := d] == a + [d] + b;
    ProductJoin(a + [d], b);
    ProductJoin(a, [d]);
    assert [d][..0] == [] && Product([d]) == Product([]) * d;
    var p, q := Product(a), Product(b);
    assert p * d * q == p * q * d;
  }

  // ---------------------------------------------------------------------------------------
  // Axes
  // ---------------------------------------------------------------------------------------

  predicate ValidAxis(rank: int, axis: int) {
    -rank <= axis < rank
  }

  /** Negative axes count from the end. */
  function RealAxisOf(rank: int, axis: int): (r: nat)
    requires ValidAxis(rank, axis)
    ensures r < rank
  {
    if axis < 0 then axis + rank else axis
  }

  function Expanded(dims: seq<int>, axis: int): seq<int>
    requires ValidAxis(|dims| + 1, axis)
  {
    var k := RealAxisOf(|dims| + 1, axis);
    dims[..k] + [1] + dims[k..]
  }

  function Squeezed(dims: seq<int>, axis: int): seq<int>
    requires ValidAxis(|dims|, axis)
  {
    var k := RealAxisOf(|dims|, axis);
    dims[..k] + dims[k + 1..]
  }

  /** Expanding and squeezing the same axis, counted from either end, changes nothing. */
  lemma ExpandThenSqueeze(dims: seq<int>, axis: int)
    requires ValidAxis(|dims| + 1, axis)
    ensures var wide := Expanded(dims, axis);
            && ValidAxis(|wide|, axis) && wide[RealAxisOf(|wide|, axis)] == 1
            && Squeezed(wide, axis) == dims
  {
  }

  lemma SqueezeThenExpand(dims: seq<int>, axis: int)
    requires ValidAxis(|dims|, axis) && dims[RealAxisOf(|dims|, axis)] == 1
    ensures var narrow := Squeezed(dims, axis);
            ValidAxis(|narrow| + 1, axis) && Expanded(narrow, axis) == dims
  {
  }

  /** A dimension of one leaves the product alone, so the number of elements stays, except for
      a shape without dimensions: that has no element before, and one after. */
  lemma ExpandKeepsTotal(dims: seq<int>, axis: int)
    requires ValidAxis(|dims| + 1, axis)
    ensures Product(Expanded(dims, axis)) == Product(dims)
    ensures Total(Expanded(dims, axis)) == Total(dims) <==> dims != []
  {
    var k := RealAxisOf(|dims| + 1, axis);
    assert dims == dims[..k] + dims[k..];
    ProductJoin(dims[..k], dims[k..]);
    ProductJoin(dims[..k] + [1], dims[k..]);
    ProductJoin(dims[..k], [1]);
    assert [1][..0] == [] && Product([1]) == 1;
  }

  lemma SqueezeKeepsTotal(dims: seq<int>, axis: int)
    requires ValidAxis(|dims|, axis) && dims[RealAxisOf(|dims|, axis)] == 1
    ensures Product(Squeezed(dims, axis)) == Product(dims)
    ensures Total(Squeezed(dims, axis)) == Total(dims) <==> |dims| != 1
  {
    SqueezeThenExpand(dims, axis);
    ExpandKeepsTotal(Squeezed(dims, axis), axis);
  }

  // ---------------------------------------------------------------------------------------
  // Reshaping
  // ---------------------------------------------------------------------------------------

  function FirstOpen(dims: seq<int>): (k: nat)
    ensures k <= |dims| && (OpenDims(dims) == 0 <==> k == |dims|)
    ensures k < |dims| ==> dims[k] == DIM_ANY
    ensures forall i :: 0 <= i < k ==> dims[i] != DIM_ANY
  {
    if dims == [] then 0
    else
      var k := FirstOpen(dims[..|dims| - 1]);
      if k < |dims| - 1 then k
      else if dims[|dims| - 1] == DIM_ANY then |dims| - 1 else |dims|
  }

  /** The dimensions after reshaping, if reshaping succeeds; totals are those kept in the shapes. */
  function Reshaped(dims: seq<int>, total: int, other: seq<int>, otherTotal: int): Option<seq<int>> {
    var open, otherOpen := OpenDims(dims), OpenDims(other);
    if open > 1 || otherOpen > 1 then None
    else if open == 0 && otherOpen == 0 then
      if total == otherTotal then Some(other) else None
    else if open == 0 then
      if total == 0 || otherTotal == 0 || Remainder(total, -otherTotal) != 0 then None
      else Some(other[FirstOpen(other) := Quotient(total, -otherTotal)])
    else if otherOpen == 0 then
      if total == 0 || Remainder(otherTotal, -total) != 0 then None else Some(other)
    else Some(other)
  }

  /** A shape that agrees with a target everywhere but at the target's open dimension. */
  predicate Fills(result: seq<int>, other: seq<int>) {
    && |result| == |other|
    && forall i :: 0 <= i < |other| ==> (other[i] != DIM_ANY ==> result[i] == other[i])
  }

  /** Reshaping dimensions without an open one: the number of elements stays, and the result is
      the only way to fill the target in that keeps it. It succeeds if there is one, except that
      a shape without elements never takes an open target. */
  lemma ReshapeConserves(dims: seq<int>, other: seq<int>, candidate: seq<int>)
    requires OpenDims(dims) == 0 && OpenDims(other) <= 1
    ensures var r, given := Reshaped(dims, Total(dims), other, Total(other)), OpenDims(other) == 0;
            && (r.Some? ==> Fills(r.value, other) && Total(r.value) == Total(dims))
            && (!given && Total(dims) == 0 ==> r == None)
            && ((given || Total(dims) != 0) && Fills(candidate, other) && Total(candidate) == Total(dims)
                ==> r == Some(candidate))
  {
    var total := Total(dims);
    var r := Reshaped(dims, total, other, Total(other));
    if OpenDims(other) == 0 {
      NothingOpen(other, candidate);
    } else {
      var k := FirstOpen(other);
      OnlyOpen(other, k);
      var rest := Product(other[..k]) * Product(other[k + 1..]);
      ProductAround(other, k, DIM_ANY);
      assert other[k := DIM_ANY] == other;
      assert Total(other) == -rest;
      if rest != 0 {
        RemainderZero(total, rest);
        if r.Some? {
          ProductAround(other, k, Quotient(total, rest));
        }
      }
      if total != 0 && Fills(candidate, other) && Total(candidate) == total {
        var d := candidate[k];
        assert candidate == other[k := d];
        ProductAround(other, k, d);
        assert rest * d == total;
        FillIsQuotient(total, rest, d);
      }
    }
  }

  lemma FillIsQuotient(total: int, rest: int, d: int)
    requires rest * d == total && total != 0
    ensures rest != 0 && Remainder(total, rest) == 0 && Quotient(total, rest) == d
  {
    assert d * rest == total;
    RemainderZero(total, rest);
    var q := Quotient(total, rest);
    assert (q - d) * rest == 0;
  }

  lemma {:induction false} NothingOpen(other: seq<int>, candidate: seq<int>)
    requires OpenDims(other) == 0
    ensures Fills(candidate, other) ==> candidate == other
    ensures Fills(other, other)
  {
    assert FirstOpen(other) == |other|;
  }

  lemma {:induction false} OnlyOpen(other: seq<int>, k: nat)
    requires OpenDims(other) == 1 && k == FirstOpen(other)
    ensures k < |other| && forall i :: 0 <= i < |other| && i != k ==> other[i] != DIM_ANY
    decreases |other|
  {
    var last := |other| - 1;
    if other[last] == DIM_ANY {
      assert FirstOpen(other[..last]) == last;
    } else {
      OnlyOpen(other[..last], k);
    }
  }

  // ---------------------------------------------------------------------------------------
  // The shape object
  // ---------------------------------------------------------------------------------------

  lemma OneInserted(now: seq<int>, was: seq<int>, at: nat, n: nat)
    requires at <= n < |now| == |was| && now[at] == 1
    requires forall k :: 0 <= k < at ==> now[k] == was[k]
    requires forall k :: at < k <= n ==> now[k] == was[k - 1]
    ensures now[..n + 1] == was[..at] + [1] + was[at..n]
  {
  }

  class Shape {
    var rank: int
    var totalDim: int
    const dim: array<int>

    constructor ()
      ensures Valid() && rank == 0 && totalDim == 0 && fresh(dim)
    {
      rank, totalDim := 0, 0;
      dim := new int[MAX_RANK](_ => 0);
    }

    predicate Valid()
      reads this
    {
      dim.Length == MAX_RANK && 0 <= rank <= MAX_RANK
    }

    function Dims(): seq<int>
      requires Valid()
      reads this, dim
    {
      dim[..rank]
    }

    /** The kept total is the number of elements that the dimensions say. */
    predicate Consistent()
      requires Valid()
      reads this, dim
    {
      totalDim == Total(Dims())
    }

    method Clear()
      requires Valid()
      modifies this
      ensures Valid() && Dims() == [] && Consistent()
    {
      rank, totalDim := 0, 0;
    }

    /** Fails, changing nothing, if there are too many dimensions. */
    method Assign(dims: seq<int>) returns (ok: bool)
      requires Valid()
      modifies this, dim
      ensures Valid() && (ok <==> |dims| <= 8)
      ensures ok ==> Dims() == dims && Consistent()
      ensures !ok ==> Dims() == old(Dims()) && totalDim == old(totalDim)
    {
      if |dims| == 0 {
        Clear();
        return true;
      }
      if |dims| > MAX_RANK {
        return false;
      }
      rank, totalDim := |dims|, 1;
      for i := 0 to |dims|
        invariant Valid() && rank == |dims| && dim[..i] == dims[..i] && totalDim == Product(dims[..i])
      {
        assert dims[..i + 1][..i] == dims[..i];
        dim[i] := dims[i];
        totalDim := totalDim * dim[i];
      }
      assert dims[..|dims|] == dims;
      return true;
    }

    method CopyFrom(other: Shape)
      requires Valid() && other.Valid() && (other == this || other.dim != dim)
      modifies this, dim
      ensures Valid() && rank == old(other.rank) && totalDim == old(other.totalDim)
      ensures dim[..] == old(other.dim[..])
    {
      rank, totalDim := other.rank, other.totalDim;
      for i := 0 to MAX_RANK
        invariant dim[..i] == old(other.dim[..i]) && other.dim[i..] == old(other.dim[i..])
        modifies dim
      {
        dim[i] := other.dim[i];
      }
      assert dim[..] == dim[..MAX_RANK];
    }

    method CountOpen() returns (n: nat)
      requires Valid()
      ensures n == OpenDims(Dims())
    {
      n := 0;
      for i := 0 to rank
        invariant n == OpenDims(dim[..i])
      {
        assert dim[..i + 1][..i] == dim[..i];
        if dim[i] == DIM_ANY {
          n := n + 1;
        }
      }
    }

    method DoReshapeNothrow(other: Shape) returns (ok: bool)
      requires Valid() && other.Valid() && (other == this || other.dim != dim)
      modifies this, dim
      ensures Valid()
      ensures var r := Reshaped(old(Dims()), old(totalDim), old(other.Dims()), old(other.totalDim));
              && (ok <==> r.Some?)
              && (ok ==> Dims() == r.value)
      ensures !ok ==> Dims() == old(Dims()) && totalDim == old(totalDim)
      ensures ok && OpenDims(old(Dims())) == 0 ==> totalDim == old(totalDim)
      ensures ok && OpenDims(old(Dims())) > 0 ==> totalDim == old(other.totalDim)
      ensures ok && old(Consistent() && other.Consistent()) ==> Consistent()
    {
      var neg := CountOpen();
      var otherNeg := other.CountOpen();
      ghost var total := totalDim;
      if neg > 1 || otherNeg > 1 {
        return false;
      }
      if neg == 0 && otherNeg == 0 {
        if totalDim != other.totalDim {
          return false;
        }
        CopyFrom(other);
        return true;
      }
      if neg == 0 {
        if totalDim == 0 || other.totalDim == 0 {
          return false;
        }
        var a := Quotient(totalDim, -other.totalDim);
        var b := Remainder(totalDim, -other.totalDim);
        if b != 0 {
          return false;
        }
        ReshapeFills(Dims(), totalDim, other.Dims(), other.totalDim);
        CopyFrom(other);
        Fill(a);
        return true;
      }
      if otherNeg == 0 {
        if totalDim == 0 || Remainder(other.totalDim, -totalDim) != 0 {
          return false;
        }
      }
      CopyFrom(other);
      return true;
    }

    /** Puts a where the first open dimension is. */
    method Fill(a: int)
      requires Valid() && OpenDims(Dims()) >= 1
      modifies this`totalDim, dim
      ensures Valid() && Dims() == old(Dims()[FirstOpen(Dims()) := a])
      ensures totalDim == old(totalDim) * -a
    {
      ghost var dims := Dims();
      var i := 0;
      while dim[i] != DIM_ANY
        invariant 0 <= i <= FirstOpen(dims) < rank && Dims() == dims
        invariant totalDim == old(totalDim)
        decreases rank - i
      {
        i := i + 1;
      }
      dim[i] := a;
      totalDim := totalDim * Quotient(a, DIM_ANY);
    }

    method DoExpandDimNothrow(axis: int) returns (ok: bool)
      requires Valid()
      modifies this`rank, dim
      ensures Valid()
      ensures ok <==> old(rank) < 8 && ValidAxis(old(rank) + 1, axis)
      ensures ok ==> Dims() == Expanded(old(Dims()), axis)
      ensures !ok ==> dim[..] == old(dim[..])
      ensures !ok ==> rank == if old(rank) == MAX_RANK then MAX_RANK else old(rank) + 1
      ensures ok && old(Consistent()) ==> (Consistent() <==> old(rank) != 0)
    {
      if rank == MAX_RANK {
        return false;
      }
      rank := rank + 1;
      var valid, at := RealAxis(axis);
      if !valid {
        return false;
      }
      hide Total, Product;
      ghost var dims := old(Dims());
      assert dims == dim[..rank - 1];
      ExpandKeepsTotal(dims, axis);
      InsertOne(at, rank - 1);
      assert dims[..at] == old(dim[..at]) && dims[at..] == old(dim[at..rank]);
      assert Dims() == Expanded(dims, axis);
      return true;
    }

    /** Moves the dimensions from at on by one place, the last first, and puts 1 there. */
    method InsertOne(at: int, n: int)
      requires Valid() && 0 <= at <= n < MAX_RANK
      modifies dim
      ensures dim[..n + 1] == old(dim[..at]) + [1] + old(dim[at..n])
    {
      var i := n;
      while i > at
        invariant at <= i <= n
        invariant forall k :: 0 <= k <= i ==> dim[k] == old(dim[k])
        invariant forall k :: i < k <= n ==> dim[k] == old(dim[k - 1])
        modifies dim
        decreases i
      {
        dim[i] := dim[i - 1];
        i := i - 1;
      }
      dim[at] := 1;
      OneInserted(dim[..], old(dim[..]), at, n);
    }

    method DoSqueezeNothrow(axis: int) returns (ok: bool)
      requires Valid()
      modifies this`rank, dim
      ensures Valid()
      ensures ok <==> ValidAxis(old(rank), axis) && old(Dims())[RealAxisOf(old(rank), axis)] == 1
      ensures ok ==> Dims() == Squeezed(old(Dims()), axis)
      ensures !ok ==> rank == old(rank) && dim[..] == old(dim[..])
      ensures ok && old(Consistent()) ==> (Consistent() <==> old(rank) != 1)
    {
      var valid, at := RealAxis(axis);
      if !valid {
        return false;
      }
      if dim[at] != 1 {
        return false;
      }
      hide Total, Product;
      ghost var dims := Dims();
      SqueezeKeepsTotal(dims, axis);
      RemoveAt(at, rank);
      assert dims[..at] == old(dim[..at]) && dims[at + 1..] == old(dim[at + 1..rank]);
      rank := rank - 1;
      assert Dims() == Squeezed(dims, axis);
      return true;
    }

    /** Moves the dimensions behind at by one place, the first first, and leaves a 1 behind. */
    method RemoveAt(at: int, n: int)
      requires Valid() && 0 <= at < n <= MAX_RANK
      modifies dim
      ensures dim[..n - 1] == old(dim[..at]) + old(dim[at + 1..n])
    {
      for i := at to n - 1
        invariant forall k :: 0 <= k < at ==> dim[k] == old(dim[k])
        invariant forall k :: at <= k < i ==> dim[k] == old(dim[k + 1])
        invariant forall k :: i <= k < n ==> dim[k] == old(dim[k])
        modifies dim
      {
        dim[i] := dim[i + 1];
      }
      dim[n - 1] := 1;
      assert dim[..at] == old(dim[..at]) && dim[at..n - 1] == old(dim[at + 1..n]);
      assert dim[..n - 1] == dim[..at] + dim[at..n - 1];
    }

    method RealAxis(axis: int) returns (ok: bool, at: int)
      requires Valid()
      ensures ok <==> ValidAxis(rank, axis)
      ensures at == if ok then RealAxisOf(rank, axis) else axis
    {
      if axis >= rank || axis < -rank {
        return false, axis;
      }
      return true, if axis < 0 then axis + rank else axis;
    }

    /** Reports failure by an empty shape. */
    method ReshapeNothrow(other: Shape)
      requires Valid() && other.Valid() && (other == this || other.dim != dim)
      modifies this, dim
      ensures Valid()
      ensures var r := Reshaped(old(Dims()), old(totalDim), old(other.Dims()), old(other.totalDim));
              Dims() == if r.Some? then r.value else []
      ensures old(Consistent() && other.Consistent()) ==> Consistent()
    {
      var ok := DoReshapeNothrow(other);
      if !ok {
        Clear();
      }
    }

    method ExpandDimNothrow(axis: int)
      requires Valid()
      modifies this, dim
      ensures Valid()
      ensures Dims() == if old(rank) < MAX_RANK && ValidAxis(old(rank) + 1, axis)
                        then Expanded(old(Dims()), axis) else []
    {
      var ok := DoExpandDimNothrow(axis);
      if !ok {
        Clear();
      }
    }

    method SqueezeNothrow(axis: int)
      requires Valid()
      modifies this, dim
      ensures Valid()
      ensures Dims() == if ValidAxis(old(rank), axis) && old(Dims())[RealAxisOf(old(rank), axis)] == 1
                        then Squeezed(old(Dims()), axis) else []
    {
      var ok := DoSqueezeNothrow(axis);
      if !ok {
        Clear();
      }
    }

    method SameShape(other: Shape) returns (same: bool)
      requires Valid() && other.Valid()
      ensures same <==> Dims() == other.Dims()
    {
      if rank != other.rank {
        return false;
      }
      for i := 0 to rank
        invariant dim[..i] == other.dim[..i]
      {
        if dim[i] != other.dim[i] {
          assert Dims()[i] != other.Dims()[i];
          return false;
        }
      }
      return true;
    }
  }

  /** Filling the open dimension makes the kept total that of the source. */
  lemma ReshapeFills(dims: seq<int>, total: int, other: seq<int>, otherTotal: int)
    requires OpenDims(dims) == 0 && OpenDims(other) == 1 && otherTotal != 0
    requires Remainder(total, -otherTotal) == 0
    ensures var a := Quotient(total, -otherTotal);
            && otherTotal * -a == total
            && (otherTotal == Total(other) ==> Total(other[FirstOpen(other) := a]) == total)
  {
    hide Product, Quotient, Remainder, FirstOpen, OpenDims;
    var a := Quotient(total, -otherTotal);
    RemainderZero(total, -otherTotal);
    var k := FirstOpen(other);
    OnlyOpen(other, k);
    ProductAround(other, k, DIM_ANY);
    ProductAround(other, k, a);
    assert other[k := DIM_ANY] == other;
    var rest := Product(other[..k]) * Product(other[k + 1..]);
    assert Total(other) == -rest && Total(other[k := a]) == rest * a;
  }
}
