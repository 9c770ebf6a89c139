/** Client-level consequences of the matrix contracts: operations that undo
    each other, and laws that hold across several calls. */
module MatrixScenarios {
  import opened Wrappers
  import opened Math

  /** Transposing a square matrix twice in place restores it, and the trace
      is the same after one transposition. */
  method TransposeTwiceRestores(m: Matrix) returns (before: int, after: int)
    requires m.Valid() && m.M == m.N
    modifies m.elm
    ensures m.Valid() && m.Value() == old(m.Value())
    ensures before == after
  {
    before := m.Trace();
    m.Transpose();
    after := m.Trace();
    TraceTransposed(old(m.Value()), m.M, m.M);
    m.Transpose();
    TransposedInvolution(old(m.Value()), m.M);
  }

  /** Expanding a matrix by one row and column and then reducing it gives
      back the original elements. */
  method ExpandThenReduce(m: Matrix) returns (r: Matrix)
    requires m.Valid()
    ensures fresh(r.elm) && r.Valid() && r.M == m.M && r.N == m.N
    ensures r.Value() == m.Value()
  {
    var e := m.GetExpanded();
    r := e.GetReduced();
    ReducedExpanded(m.Value(), m.M, m.N);
  }

  /** An element written with Assign is what At reads back; an out-of-range
      write is refused and the read at the same place fails too. */
  method AssignThenRead(m: Matrix, i: int, j: int, v: int)
    returns (written: Result<(), IndexOutOfBounds>, read: Result<int, IndexOutOfBounds>)
    requires m.Valid()
    modifies m.elm
    ensures written.Ok? ==> read == Ok(v)
    ensures written.Err? ==> read.Err? && read.error == written.error && m.Value() == old(m.Value())
  {
    written := m.Assign(i, j, v);
    read := m.At(i, j);
  }

  /** Multiplying a square matrix by the identity of its size gives a matrix
      equal to it. */
  method TimesIdentityIsEqual(m: Matrix) returns (equal: bool)
    requires m.Valid() && m.M == m.N
    ensures equal
  {
    var id := new Matrix.Identity(m.M, m.N);
    var p := m.Mul(id);
    ProductIdentityRight(m.Value(), m.M);
    equal := p.Equals(m);
  }

  /** Building a matrix from a row-major array and flattening it again
      reproduces the array. */
  method ArrayRoundTrip(a: array<int>, rows: nat, cols: nat) returns (b: array<int>)
    requires a.Length == rows * cols
    ensures fresh(b) && b[..] == a[..]
  {
    var m := new Matrix.FromArray(rows, cols, a);
    b := new int[rows * cols];
    m.ToArray(b);
    RowMajorOfFromRowMajor(a[..], rows, cols);
  }
}
