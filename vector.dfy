/** The algebraic part of the immutable `Vector` of vector.py.

    A vector is the tuple of its components.  The constructor substitutes
    `(0, 0)` for an empty argument list, so no vector the program can build
    has zero components; the subset type below records that.  Components are
    modelled as mathematical reals: every operation here is exact, and the
    floating-point rounding of the Python code is not modelled. */
module Vectors {
  import opened Wrappers

  type Vector = s: seq<real> | |s| > 0 witness [0.0, 0.0]

  /** Failures the Python code raises: an assertion about the shape of a
      matrix, or a division by zero. */
  datatype Error =
    | NotSquare          // rotate_by_matrix: some row's length differs from the row count
    | DimensionMismatch  // matrix_mult: some row's length differs from the vector's
    | ZeroDivision       // __div__ by zero

  /** The right operand of `*`: either a number or another vector. */
  datatype Operand = Scalar(k: real) | Vec(w: Vector)

  /** What `*` returns: a number for a vector operand, a vector for a scalar. */
  datatype Product = Number(x: real) | Scaled(v: Vector)

  // ---------------------------------------------------------------------
  // Construction and access

  /** `Vector(*args)`: the given components in order, or `(0, 0)` when none
      are given. */
  function New(args: seq<real>): (v: Vector)
    ensures |args| > 0 ==> v == args
    ensures |args| == 0 ==> |v| == 2 && forall i :: 0 <= i < |v| ==> v[i] == 0.0
  {
    if |args| == 0 then [0.0, 0.0] else args
  }

  /** `v[key]` for an integer key, with Python's negative indices counting
      from the end; a key outside `-len(v) .. len(v) - 1` raises IndexError. */
  function Get(v: Vector, key: int): (r: Option<real>)
    ensures r.Some? <==> -|v| <= key < |v|
    ensures 0 <= key < |v| ==> r == Some(v[key])
    ensures -|v| <= key < 0 ==> r == Some(v[|v| + key])
  {
    if 0 <= key < |v| then Some(v[key])
    else if -|v| <= key < 0 then Some(v[|v| + key])
    else None
  }

  /** `len(v)`: the number of components, each of which `Get` reaches. */
  function Len(v: Vector): (n: nat)
    ensures n >= 1
    ensures forall key: int :: Get(v, key).Some? <==> -(n as int) <= key < n
  {
    |v|
  }

  // ---------------------------------------------------------------------
  // Component-wise operators (zip truncates to the shorter operand)

  function Min(a: nat, b: nat): nat {
    if a <= b then a else b
  }

  /** `a + b`: sums of the zipped components. */
  function Add(a: Vector, b: Vector): (r: Vector)
    ensures |r| == Min(|a|, |b|)
    ensures forall i :: 0 <= i < |r| ==> r[i] == a[i] + b[i]
  {
    New(seq(Min(|a|, |b|), i requires 0 <= i < Min(|a|, |b|) => a[i] + b[i]))
  }

  /** `a - b`: differences of the zipped components. */
  function Sub(a: Vector, b: Vector): (r: Vector)
    ensures |r| == Min(|a|, |b|)
    ensures forall i :: 0 <= i < |r| ==> r[i] == a[i] - b[i]
  {
    New(seq(Min(|a|, |b|), i requires 0 <= i < Min(|a|, |b|) => a[i] - b[i]))
  }

  /** `_dot_product`: the sum of the products of the zipped components. */
  function Dot(a: seq<real>, b: seq<real>): (r: real)
    ensures |a| == 0 || |b| == 0 ==> r == 0.0
    ensures (forall i :: 0 <= i < |a| ==> a[i] == 0.0) ==> r == 0.0
    ensures (forall i :: 0 <= i < |b| ==> b[i] == 0.0) ==> r == 0.0
    decreases |a|
  {
    if |a| == 0 || |b| == 0 then 0.0
    else
      assert forall i :: 0 <= i < |a[1..]| ==> a[1..][i] == a[i + 1];
      assert forall i :: 0 <= i < |b[1..]| ==> b[1..][i] == b[i + 1];
      a[0] * b[0] + Dot(a[1..], b[1..])
  }

  /** `v * k` for a number `k`. */
  function Scale(v: Vector, k: real): (r: Vector)
    ensures |r| == |v|
    ensures forall i :: 0 <= i < |r| ==> r[i] == v[i] * k
  {
    New(seq(|v|, i requires 0 <= i < |v| => v[i] * k))
  }

  /** `v * other`: the dot product for a vector operand, the scaled vector
      for a number. */
  function Mul(v: Vector, other: Operand): (p: Product)
    ensures other.Vec? <==> p.Number?
    ensures other.Vec? ==> p.x == Dot(v, other.w)
    ensures other.Scalar? ==> |p.v| == |v| && forall i :: 0 <= i < |v| ==> p.v[i] == v[i] * other.k
  {
    match other
    case Vec(w) => Number(Dot(v, w))
    case Scalar(k) => Scaled(Scale(v, k))
  }

  /** `other * v` when `other` has no `__mul__` of its own: `__rmul__`
      forwards to `v * other`.  For a number this is `k * v == v * k`; for a
      vector operand it is the same dot product `other * v` would give. */
  function RMul(v: Vector, other: Operand): (p: Product)
    ensures other.Scalar? ==> p == Mul(v, other)
    ensures other.Vec? ==> p == Mul(other.w, Vec(v))
  {
    match other
    case Vec(w) => DotCommutes(v, w); Mul(v, other)
    case Scalar(_) => Mul(v, other)
  }

  /** `v / k`: every component divided by `k`; dividing by zero raises. */
  function Div(v: Vector, k: real): (r: Result<Vector, Error>)
    ensures r.Err? <==> k == 0.0
    ensures r.Err? ==> r.error == ZeroDivision
    ensures r.Ok? ==> |r.value| == |v| && forall i :: 0 <= i < |v| ==> r.value[i] == v[i] / k
  {
    if k == 0.0 then Err(ZeroDivision)
    else Ok(New(seq(|v|, i requires 0 <= i < |v| => v[i] / k)))
  }

  // ---------------------------------------------------------------------
  // Matrices

  /** Every row of `m` has exactly `n` entries. */
  predicate RowsOfLength(m: seq<seq<real>>, n: nat) {
    forall i :: 0 <= i < |m| ==> |m[i]| == n
  }

  /** `matrix_mult(m)`: asserts that every row has the vector's length, then
      builds the vector of the rows' dot products with `v`.  With no rows the
      tuple of products is empty and the constructor yields `(0, 0)`. */
  function MatrixMult(v: Vector, m: seq<seq<real>>): (r: Result<Vector, Error>)
    ensures r.Ok? <==> RowsOfLength(m, |v|)
    ensures r.Err? ==> r.error == DimensionMismatch
    ensures r.Ok? && |m| > 0 ==>
      |r.value| == |m| && forall i :: 0 <= i < |m| ==> r.value[i] == Dot(m[i], v)
    ensures r.Ok? && |m| == 0 ==> r.value == [0.0, 0.0]
  {
    if !RowsOfLength(m, |v|) then Err(DimensionMismatch)
    else Ok(New(seq(|m|, i requires 0 <= i < |m| => Dot(m[i], v))))
  }

  /** `rotate_by_matrix(m)`: asserts that `m` is square, then defers to
      `matrix_mult`, which asserts that it matches the vector. */
  function RotateByMatrix(v: Vector, m: seq<seq<real>>): (r: Result<Vector, Error>)
    ensures r.Ok? <==> RowsOfLength(m, |m|) && RowsOfLength(m, |v|)
    ensures !RowsOfLength(m, |m|) ==> r == Err(NotSquare)
    ensures RowsOfLength(m, |m|) ==> r == MatrixMult(v, m)
  {
    if !RowsOfLength(m, |m|) then Err(NotSquare) else MatrixMult(v, m)
  }

  /** The `n` by `n` identity matrix. */
  function Identity(n: nat): (m: seq<seq<real>>)
    ensures |m| == n && RowsOfLength(m, n)
    ensures forall i, j :: 0 <= i < n && 0 <= j < n ==> m[i][j] == if i == j then 1.0 else 0.0
  {
    seq(n, i => seq(n, j => if i == j then 1.0 else 0.0))
  }

  // ---------------------------------------------------------------------
  // Properties of the dot product

  /** Only the zipped prefix takes part in the dot product. */
  lemma {:induction false} DotTruncates(a: seq<real>, b: seq<real>)
    ensures Dot(a, b) == Dot(a[..Min(|a|, |b|)], b[..Min(|a|, |b|)])
  {
    if |a| > 0 && |b| > 0 {
      DotTruncates(a[1..], b[1..]);
      var m := Min(|a|, |b|);
      assert a[..m][1..] == a[1..][..m - 1];
      assert b[..m][1..] == b[1..][..m - 1];
    }
  }

  lemma {:induction false} DotCommutes(a: seq<real>, b: seq<real>)
    ensures Dot(a, b) == Dot(b, a)
  {
    if |a| > 0 && |b| > 0 {
      DotCommutes(a[1..], b[1..]);
    }
  }

  /** Adding a positive product to `t` gives more than `t`. */
  lemma AddPositive(a: real, b: real, t: real, d: real)
    requires d == a * b + t && a * b > 0.0
    ensures d > t
  {
  }

  /** `v * v`, the sum of squares under the norm, is never negative and is
      zero exactly for the all-zero vector. */
  lemma {:induction false} DotSelf(v: seq<real>)
    ensures Dot(v, v) >= 0.0
    ensures Dot(v, v) == 0.0 <==> forall i :: 0 <= i < |v| ==> v[i] == 0.0
  {
    if |v| > 0 {
      var t := v[1..];
      DotSelf(t);
      assert Dot(v, v) == v[0] * v[0] + Dot(t, t);
      if v[0] != 0.0 {
        AddPositive(v[0], v[0], Dot(t, t), Dot(v, v));
      } else if exists i :: 0 <= i < |v| && v[i] != 0.0 {
        var i :| 0 <= i < |v| && v[i] != 0.0;
        assert t[i - 1] != 0.0;
      } else {
        assert forall i :: 0 <= i < |t| ==> t[i] == v[i + 1];
      }
    }
  }

  /** A row with a single 1 at position `k` and zeros elsewhere picks out
      component `k`. */
  lemma {:induction false} DotUnitRow(e: seq<real>, v: seq<real>, k: int)
    requires |e| == |v|
    requires forall j :: 0 <= j < |e| ==> e[j] == if j == k then 1.0 else 0.0
    ensures 0 <= k < |v| ==> Dot(e, v) == v[k]
    ensures !(0 <= k < |v|) ==> Dot(e, v) == 0.0
  {
    if |e| > 0 {
      assert forall j :: 0 <= j < |e[1..]| ==> e[1..][j] == e[j + 1];
      DotUnitRow(e[1..], v[1..], k - 1);
      if 0 < k < |v| {
        assert v[1..][k - 1] == v[k];
      }
    }
  }

  // ---------------------------------------------------------------------
  // Algebraic laws of the operators

  /** The dot product of the `*` operator does not depend on the order of
      its vector operands. */
  lemma MulVectorsCommutes(a: Vector, b: Vector)
    ensures Mul(a, Vec(b)) == Mul(b, Vec(a))
  {
    DotCommutes(a, b);
  }

  /** For vectors of one length, subtracting and adding back `b` returns `a`. */
  lemma SubThenAdd(a: Vector, b: Vector)
    requires |a| == |b|
    ensures Add(Sub(a, b), b) == a
  {
  }

  /** For a non-zero `k`, dividing `v * k` by `k` returns `v`. */
  lemma ScaleThenDiv(v: Vector, k: real)
    requires k != 0.0
    ensures Div(Scale(v, k), k) == Ok(v)
  {
    var q := Div(Scale(v, k), k).value;
    assert |q| == |v|;
    forall i | 0 <= i < |v| ensures q[i] == v[i] {
      assert q[i] == (v[i] * k) / k;
      assert (v[i] * k) / k == v[i];
    }
    assert q == v;
  }

  /** Multiplying by the identity matrix, through either entry point,
      returns the vector unchanged. */
  lemma {:induction false} IdentityFixes(v: Vector)
    ensures MatrixMult(v, Identity(|v|)) == Ok(v)
    ensures RotateByMatrix(v, Identity(|v|)) == Ok(v)
  {
    var m := Identity(|v|);
    forall i | 0 <= i < |v| ensures Dot(m[i], v) == v[i] {
      DotUnitRow(m[i], v, i);
    }
    assert MatrixMult(v, m).value == v;
  }

  /** The constructions of tests/test_vector.py. */
  lemma ConstructionExamples()
    ensures New([3.0, 4.0]) == [3.0, 4.0]
    ensures New([]) == [0.0, 0.0]
  {
  }
}
