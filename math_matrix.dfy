/** Fixed-size matrices of integers: M rows of N elements, stored in place. */
module Math {
  import opened Wrappers

  /** Raised by element access: the offending index and the range [lower, upper) it missed. */
  datatype IndexOutOfBounds = IndexOutOfBounds(index: int, lower: int, upper: int)

  /** A matrix as a value: a sequence of rows. */
  type Grid = seq<seq<int>>

  predicate IsShape(g: Grid, m: nat, n: nat) {
    |g| == m && forall i :: 0 <= i < m ==> |g[i]| == n
  }

  /** Two grids of one shape that agree everywhere are the same value. */
  lemma GridEq(g: Grid, h: Grid, m: nat, n: nat)
    requires IsShape(g, m, n) && IsShape(h, m, n)
    requires forall i, j :: 0 <= i < m && 0 <= j < n ==> g[i][j] == h[i][j]
    ensures g == h
  {
    forall i | 0 <= i < m
      ensures g[i] == h[i]
    {
      assert forall j :: 0 <= j < n ==> g[i][j] == h[i][j];
    }
  }

  // ---------------------------------------------------------------------
  // The value-level specification

  /** Ones where the row index equals the column index, zeros elsewhere;
      a non-square shape gets whole zero rows or columns. */
  function IdentityOf(m: nat, n: nat): (g: Grid)
    ensures IsShape(g, m, n)
  {
    seq(m, i => seq(n, j => if i == j then 1 else 0))
  }

  function ScalarOf(m: nat, n: nat, s: int): (g: Grid)
    ensures IsShape(g, m, n)
  {
    seq(m, i => seq(n, j => s))
  }

  /** Row-major layout: row i occupies positions i * n .. i * n + n - 1. */
  function RowMajor(g: Grid, m: nat, n: nat): (a: seq<int>)
    requires IsShape(g, m, n)
    ensures |a| == m * n
  {
    if m == 0 then [] else RowMajor(g[..m - 1], m - 1, n) + g[m - 1]
  }

  /** The grid whose row-major layout is `a`. */
  function FromRowMajor(a: seq<int>, m: nat, n: nat): (g: Grid)
    requires |a| == m * n
    ensures IsShape(g, m, n)
  {
    if m == 0 then []
    else FromRowMajor(a[..(m - 1) * n], m - 1, n) + [a[(m - 1) * n..]]
  }

  lemma IndexInRange(i: nat, j: nat, m: nat, n: nat)
    requires i < m && j < n
    ensures i * n + j < m * n
  {
    assert (i + 1) * n == i * n + n;
    assert (m - (i + 1)) * n >= 0;
  }

  /** The layout of the first i + 1 rows extends that of the first i rows by row i. */
  lemma RowMajorStep(g: Grid, m: nat, n: nat, i: nat)
    requires IsShape(g, m, n) && i < m
    ensures (i + 1) * n == i * n + n <= m * n
    ensures RowMajor(g[..i + 1], i + 1, n) == RowMajor(g[..i], i, n) + g[i]
  {
    assert g[..i + 1][..i] == g[..i];
    assert (m - (i + 1)) * n >= 0;
  }

  /** Element (i, j) sits at position i * n + j of the row-major layout. */
  lemma {:induction false} RowMajorAt(g: Grid, m: nat, n: nat, i: nat, j: nat)
    requires IsShape(g, m, n) && i < m && j < n
    ensures i * n + j < m * n && RowMajor(g, m, n)[i * n + j] == g[i][j]
  {
    IndexInRange(i, j, m, n);
    if i < m - 1 {
      IndexInRange(i, j, m - 1, n);
      RowMajorAt(g[..m - 1], m - 1, n, i, j);
    }
  }

  lemma {:induction false} FromRowMajorAt(a: seq<int>, m: nat, n: nat, i: nat, j: nat)
    requires |a| == m * n && i < m && j < n
    ensures i * n + j < m * n && FromRowMajor(a, m, n)[i][j] == a[i * n + j]
  {
    IndexInRange(i, j, m, n);
    if i < m - 1 {
      IndexInRange(i, j, m - 1, n);
      FromRowMajorAt(a[..(m - 1) * n], m - 1, n, i, j);
    }
  }

  /** Reading a row-major array into a matrix and writing it back gives the array. */
  lemma {:induction false} RowMajorOfFromRowMajor(a: seq<int>, m: nat, n: nat)
    requires |a| == m * n
    ensures RowMajor(FromRowMajor(a, m, n), m, n) == a
  {
    if m > 0 {
      var g := FromRowMajor(a, m, n);
      var prefix := a[..(m - 1) * n];
      assert g[..m - 1] == FromRowMajor(prefix, m - 1, n);
      RowMajorOfFromRowMajor(prefix, m - 1, n);
      assert a == prefix + a[(m - 1) * n..];
    }
  }

  /** Writing a matrix out row-major and reading it back gives the matrix. */
  lemma {:induction false} FromRowMajorOfRowMajor(g: Grid, m: nat, n: nat)
    requires IsShape(g, m, n)
    ensures FromRowMajor(RowMajor(g, m, n), m, n) == g
  {
    if m > 0 {
      var a := RowMajor(g, m, n);
      var prefix := RowMajor(g[..m - 1], m - 1, n);
      assert a[..(m - 1) * n] == prefix;
      assert a[(m - 1) * n..] == g[m - 1];
      FromRowMajorOfRowMajor(g[..m - 1], m - 1, n);
      assert g == g[..m - 1] + [g[m - 1]];
    }
  }

  /** The sum of the products of corresponding elements. */
  function Dot(u: seq<int>, v: seq<int>): int
    requires |u| == |v|
  {
    if |u| == 0 then 0
    else Dot(u[..|u| - 1], v[..|v| - 1]) + u[|u| - 1] * v[|v| - 1]
  }

  function Column(g: Grid, j: nat): (c: seq<int>)
    requires forall i :: 0 <= i < |g| ==> j < |g[i]|
    ensures |c| == |g|
  {
    seq(|g|, i requires 0 <= i < |g| => g[i][j])
  }

  /** The M x M product of an M x N and an N x M matrix. */
  function Product(a: Grid, b: Grid, m: nat, n: nat): (r: Grid)
    requires IsShape(a, m, n) && IsShape(b, n, m)
    ensures IsShape(r, m, m)
  {
    seq(m, i requires 0 <= i < m => seq(m, j requires 0 <= j < m => Dot(a[i], Column(b, j))))
  }

  /** The sum of the first k diagonal elements. */
  function DiagonalSum(g: Grid, k: nat): int
    requires k <= |g| && forall i :: 0 <= i < k ==> i < |g[i]|
  {
    if k == 0 then 0 else DiagonalSum(g, k - 1) + g[k - 1][k - 1]
  }

  function Transposed(g: Grid, n: nat): (t: Grid)
    requires IsShape(g, n, n)
    ensures IsShape(t, n, n)
  {
    seq(n, i requires 0 <= i < n => seq(n, j requires 0 <= j < n => g[j][i]))
  }

  /** One more row and column: the old elements, and the identity pattern in the new ones. */
  function Expanded(g: Grid, m: nat, n: nat): (e: Grid)
    requires IsShape(g, m, n)
    ensures IsShape(e, m + 1, n + 1)
  {
    seq(m + 1, i requires 0 <= i < m + 1 =>
      seq(n + 1, j requires 0 <= j < n + 1 =>
        if i < m && j < n then g[i][j] else if i == j then 1 else 0))
  }

  /** The leading (m - 1) x (n - 1) block. */
  function Reduced(g: Grid, m: nat, n: nat): (r: Grid)
    requires IsShape(g, m, n) && m >= 1 && n >= 1
    ensures IsShape(r, m - 1, n - 1)
  {
    seq(m - 1, i requires 0 <= i < m - 1 => seq(n - 1, j requires 0 <= j < n - 1 => g[i][j]))
  }

  // ---------------------------------------------------------------------
  // Properties of the specification

  lemma {:induction false} DotCommutes(u: seq<int>, v: seq<int>)
    requires |u| == |v|
    ensures Dot(u, v) == Dot(v, u)
  {
    if |u| > 0 {
      DotCommutes(u[..|u| - 1], v[..|v| - 1]);
    }
  }

  /** The j-th unit vector of length n. */
  function Unit(n: nat, j: nat): (e: seq<int>)
    ensures |e| == n
  {
    seq(n, k => if k == j then 1 else 0)
  }

  /** Against the j-th unit vector, a dot product picks out element j. */
  lemma DotUnit(u: seq<int>, j: nat)
    requires j < |u|
    ensures Dot(u, Unit(|u|, j)) == u[j]
  {
    DotUnitPrefix(u, j, |u|);
    assert u[..|u|] == u && Unit(|u|, j)[..|u|] == Unit(|u|, j);
  }

  lemma {:induction false} DotUnitPrefix(u: seq<int>, j: nat, t: nat)
    requires j < |u| && t <= |u|
    ensures Dot(u[..t], Unit(|u|, j)[..t]) == if j < t then u[j] else 0
  {
    var e := Unit(|u|, j);
    if t > 0 {
      DotUnitPrefix(u, j, t - 1);
      assert u[..t][..t - 1] == u[..t - 1];
      assert e[..t][..t - 1] == e[..t - 1];
    }
  }

  /** The identity is a right unit of multiplication. */
  lemma ProductIdentityRight(a: Grid, n: nat)
    requires IsShape(a, n, n)
    ensures Product(a, IdentityOf(n, n), n, n) == a
  {
    var p := Product(a, IdentityOf(n, n), n, n);
    forall i, j | 0 <= i < n && 0 <= j < n
      ensures p[i][j] == a[i][j]
    {
      assert Column(IdentityOf(n, n), j) == Unit(n, j);
      DotUnit(a[i], j);
    }
    GridEq(p, a, n, n);
  }

  /** The identity is a left unit of multiplication. */
  lemma ProductIdentityLeft(a: Grid, n: nat)
    requires IsShape(a, n, n)
    ensures Product(IdentityOf(n, n), a, n, n) == a
  {
    var p := Product(IdentityOf(n, n), a, n, n);
    forall i, j | 0 <= i < n && 0 <= j < n
      ensures p[i][j] == a[i][j]
    {
      var c := Column(a, j);
      assert IdentityOf(n, n)[i] == Unit(n, i);
      DotCommutes(IdentityOf(n, n)[i], c);
      DotUnit(c, i);
    }
    GridEq(p, a, n, n);
  }

  /** The worked example: [(1, 2), (3, 4)] squared is [(7, 10), (15, 22)]. */
  lemma ProductExample()
    ensures Product([[1, 2], [3, 4]], [[1, 2], [3, 4]], 2, 2) == [[7, 10], [15, 22]]
  {
    var a := [[1, 2], [3, 4]];
    var p := Product(a, a, 2, 2);
    assert Column(a, 0) == [1, 3] && Column(a, 1) == [2, 4];
    assert p[0][0] == Dot([1, 2], [1, 3]) == 7;
    assert p[0][1] == Dot([1, 2], [2, 4]) == 10;
    assert p[1][0] == Dot([3, 4], [1, 3]) == 15;
    assert p[1][1] == Dot([3, 4], [2, 4]) == 22;
    GridEq(p, [[7, 10], [15, 22]], 2, 2);
  }

  /** The worked example of expansion: [(1, 2), (3, 4)] becomes
      [(1, 2, 0), (3, 4, 0), (0, 0, 1)]. */
  lemma ExpandedExample()
    ensures Expanded([[1, 2], [3, 4]], 2, 2) == [[1, 2, 0], [3, 4, 0], [0, 0, 1]]
  {
    GridEq(Expanded([[1, 2], [3, 4]], 2, 2), [[1, 2, 0], [3, 4, 0], [0, 0, 1]], 3, 3);
  }

  /** The worked example of reduction: [(1, 2, 3), (4, 5, 6), (7, 8, 9)]
      becomes [(1, 2), (4, 5)]. */
  lemma ReducedExample()
    ensures Reduced([[1, 2, 3], [4, 5, 6], [7, 8, 9]], 3, 3) == [[1, 2], [4, 5]]
  {
    GridEq(Reduced([[1, 2, 3], [4, 5, 6], [7, 8, 9]], 3, 3), [[1, 2], [4, 5]], 2, 2);
  }

  lemma {:induction false} TraceIdentity(n: nat, k: nat)
    requires k <= n
    ensures DiagonalSum(IdentityOf(n, n), k) == k
  {
    if k > 0 { TraceIdentity(n, k - 1); }
  }

  lemma {:induction false} TraceScalar(n: nat, s: int, k: nat)
    requires k <= n
    ensures DiagonalSum(ScalarOf(n, n, s), k) == k * s
  {
    if k > 0 { TraceScalar(n, s, k - 1); }
  }

  /** Transposing fixes the diagonal, so it keeps the trace. */
  lemma {:induction false} TraceTransposed(g: Grid, n: nat, k: nat)
    requires IsShape(g, n, n) && k <= n
    ensures DiagonalSum(Transposed(g, n), k) == DiagonalSum(g, k)
  {
    if k > 0 { TraceTransposed(g, n, k - 1); }
  }

  /** Expanding a square matrix adds exactly one to its trace. */
  lemma TraceExpanded(g: Grid, n: nat)
    requires IsShape(g, n, n)
    ensures DiagonalSum(Expanded(g, n, n), n + 1) == DiagonalSum(g, n) + 1
  {
    TraceExpandedPrefix(g, n, n);
  }

  lemma {:induction false} TraceExpandedPrefix(g: Grid, n: nat, k: nat)
    requires IsShape(g, n, n) && k <= n
    ensures DiagonalSum(Expanded(g, n, n), k) == DiagonalSum(g, k)
  {
    if k > 0 { TraceExpandedPrefix(g, n, k - 1); }
  }

  /** Transposing twice gives back the original, and the diagonal never moves. */
  lemma TransposedInvolution(g: Grid, n: nat)
    requires IsShape(g, n, n)
    ensures Transposed(Transposed(g, n), n) == g
    ensures forall i :: 0 <= i < n ==> Transposed(g, n)[i][i] == g[i][i]
  {
    GridEq(Transposed(Transposed(g, n), n), g, n, n);
  }

  /** Reducing an expanded matrix gives back the original. */
  lemma ReducedExpanded(g: Grid, m: nat, n: nat)
    requires IsShape(g, m, n)
    ensures Reduced(Expanded(g, m, n), m + 1, n + 1) == g
  {
    GridEq(Reduced(Expanded(g, m, n), m + 1, n + 1), g, m, n);
  }

  /** Expanding an n x n identity gives the (n + 1) x (n + 1) identity: the new
      row and column are zero except for a one in the new corner. */
  lemma ExpandedIdentity(n: nat)
    ensures Expanded(IdentityOf(n, n), n, n) == IdentityOf(n + 1, n + 1)
  {
    GridEq(Expanded(IdentityOf(n, n), n, n), IdentityOf(n + 1, n + 1), n + 1, n + 1);
  }

  // ---------------------------------------------------------------------
  // The matrix object

  class Matrix {
    const M: nat
    const N: nat
    const elm: array2<int>

    ghost predicate Valid() {
      elm.Length0 == M && elm.Length1 == N
    }

    /** The current elements as a value. */
    ghost function Value(): (g: Grid)
      requires Valid()
      reads elm
      ensures IsShape(g, M, N)
      ensures forall i, j :: 0 <= i < M && 0 <= j < N ==> g[i][j] == elm[i, j]
    {
      seq(M, i requires 0 <= i < M reads elm => seq(N, j requires 0 <= j < N reads elm => elm[i, j]))
    }

    /** The default constructor: the identity pattern. */
    constructor Identity(M: nat, N: nat)
      ensures Valid() && fresh(elm) && this.M == M && this.N == N
      ensures Value() == IdentityOf(M, N)
    {
      this.M, this.N := M, N;
      elm := new int[M, N];
      new;
      var i := 0;
      while i < M
        invariant 0 <= i <= M
        invariant forall p, q :: 0 <= p < i && 0 <= q < N ==> elm[p, q] == if p == q then 1 else 0
      {
        var j := 0;
        while j < N
          invariant 0 <= j <= N
          invariant forall p, q :: 0 <= p < i && 0 <= q < N ==> elm[p, q] == if p == q then 1 else 0
          invariant forall q :: 0 <= q < j ==> elm[i, q] == if i == q then 1 else 0
        {
          elm[i, j] := if i == j then 1 else 0;
          j := j + 1;
        }
        i := i + 1;
      }
      GridEq(Value(), IdentityOf(M, N), M, N);
    }

    /** Every element set to `s`. */
    constructor Scalar(M: nat, N: nat, s: int)
      ensures Valid() && fresh(elm) && this.M == M && this.N == N
      ensures Value() == ScalarOf(M, N, s)
    {
      this.M, this.N := M, N;
      elm := new int[M, N];
      new;
      var i := 0;
      while i < M
        invariant 0 <= i <= M
        invariant forall p, q :: 0 <= p < i && 0 <= q < N ==> elm[p, q] == s
      {
        var j := 0;
        while j < N
          invariant 0 <= j <= N
          invariant forall p, q :: 0 <= p < i && 0 <= q < N ==> elm[p, q] == s
          invariant forall q :: 0 <= q < j ==> elm[i, q] == s
        {
          elm[i, j] := s;
          j := j + 1;
        }
        i := i + 1;
      }
      GridEq(Value(), ScalarOf(M, N, s), M, N);
    }

    /** The copy constructor: same elements, separate storage. */
    constructor Copy(m: Matrix)
      requires m.Valid()
      ensures Valid() && fresh(elm) && M == m.M && N == m.N
      ensures Value() == m.Value()
    {
      M, N := m.M, m.N;
      elm := new int[m.M, m.N];
      new;
      var i := 0;
      while i < M
        invariant 0 <= i <= M
        invariant forall p, q :: 0 <= p < i && 0 <= q < N ==> elm[p, q] == m.elm[p, q]
      {
        var j := 0;
        while j < N
          invariant 0 <= j <= N
          invariant forall p, q :: 0 <= p < i && 0 <= q < N ==> elm[p, q] == m.elm[p, q]
          invariant forall q :: 0 <= q < j ==> elm[i, q] == m.elm[i, q]
        {
          elm[i, j] := m.elm[i, j];
          j := j + 1;
        }
        i := i + 1;
      }
      GridEq(Value(), m.Value(), M, N);
    }

    /** Reads the M * N elements of `a` in row-major order. */
    constructor FromArray(M: nat, N: nat, a: array<int>)
      requires a.Length == M * N
      ensures Valid() && fresh(elm) && this.M == M && this.N == N
      ensures Value() == FromRowMajor(a[..], M, N)
    {
      this.M, this.N := M, N;
      elm := new int[M, N];
      new;
      var i := 0;
      while i < M
        invariant 0 <= i <= M
        invariant forall p, q :: 0 <= p < i && 0 <= q < N ==> elm[p, q] == FromRowMajor(a[..], M, N)[p][q]
      {
        var j := 0;
        while j < N
          invariant 0 <= j <= N
          invariant forall p, q :: 0 <= p < i && 0 <= q < N ==> elm[p, q] == FromRowMajor(a[..], M, N)[p][q]
          invariant forall q :: 0 <= q < j ==> elm[i, q] == FromRowMajor(a[..], M, N)[i][q]
        {
          FromRowMajorAt(a[..], M, N, i, j);
          elm[i, j] := a[i * N + j];
          j := j + 1;
        }
        i := i + 1;
      }
      GridEq(Value(), FromRowMajor(a[..], M, N), M, N);
    }

    /** A 2 x 2 matrix from its elements, row by row. */
    constructor Of2x2(a: int, b: int, c: int, d: int)
      ensures Valid() && fresh(elm) && M == 2 && N == 2
      ensures Value() == [[a, b], [c, d]]
    {
      M, N := 2, 2;
      var rows := [[a, b], [c, d]];
      elm := new int[2, 2]((i, j) requires 0 <= i < 2 && 0 <= j < 2 => rows[i][j]);
      new;
      GridEq(Value(), rows, 2, 2);
    }

    /** A 3 x 3 matrix from its elements, row by row. */
    constructor Of3x3(a: int, b: int, c: int, d: int, e: int, f: int, g: int, h: int, i: int)
      ensures Valid() && fresh(elm) && M == 3 && N == 3
      ensures Value() == [[a, b, c], [d, e, f], [g, h, i]]
    {
      M, N := 3, 3;
      var rows := [[a, b, c], [d, e, f], [g, h, i]];
      elm := new int[3, 3]((r, s) requires 0 <= r < 3 && 0 <= s < 3 => rows[r][s]);
      new;
      GridEq(Value(), rows, 3, 3);
    }

    /** A 4 x 4 matrix from its elements, row by row. */
    constructor Of4x4(a: int, b: int, c: int, d: int, e: int, f: int, g: int, h: int,
                      i: int, j: int, k: int, l: int, o: int, p: int, q: int, r: int)
      ensures Valid() && fresh(elm) && M == 4 && N == 4
      ensures Value() == [[a, b, c, d], [e, f, g, h], [i, j, k, l], [o, p, q, r]]
    {
      M, N := 4, 4;
      var rows := [[a, b, c, d], [e, f, g, h], [i, j, k, l], [o, p, q, r]];
      elm := new int[4, 4]((x, y) requires 0 <= x < 4 && 0 <= y < 4 => rows[x][y]);
      new;
      GridEq(Value(), rows, 4, 4);
    }

    /** Element (i, j), or the exception for the first index out of range. */
    method At(i: int, j: int) returns (r: Result<int, IndexOutOfBounds>)
      requires Valid()
      ensures r.Ok? <==> 0 <= i < M && 0 <= j < N
      ensures r.Ok? ==> r.value == Value()[i][j]
      ensures !(0 <= i < M) ==> r == Err(IndexOutOfBounds(i, 0, M))
      ensures 0 <= i < M && !(0 <= j < N) ==> r == Err(IndexOutOfBounds(j, 0, N))
    {
      if i < 0 || i >= M {
        return Err(IndexOutOfBounds(i, 0, M));
      }
      if j < 0 || j >= N {
        return Err(IndexOutOfBounds(j, 0, N));
      }
      return Ok(elm[i, j]);
    }

    /** Assignment through the element reference: the same bounds checks,
        then element (i, j) becomes `v` and nothing else changes. */
    method Assign(i: int, j: int, v: int) returns (r: Result<(), IndexOutOfBounds>)
      requires Valid()
      modifies elm
      ensures Valid()
      ensures r.Ok? <==> 0 <= i < M && 0 <= j < N
      ensures !(0 <= i < M) ==> r == Err(IndexOutOfBounds(i, 0, M))
      ensures 0 <= i < M && !(0 <= j < N) ==> r == Err(IndexOutOfBounds(j, 0, N))
      ensures r.Ok? ==> Value() == old(Value())[i := old(Value())[i][j := v]]
      ensures r.Err? ==> Value() == old(Value())
    {
      ghost var g := Value();
      if i < 0 || i >= M {
        return Err(IndexOutOfBounds(i, 0, M));
      }
      if j < 0 || j >= N {
        return Err(IndexOutOfBounds(j, 0, N));
      }
      elm[i, j] := v;
      GridEq(Value(), g[i := g[i][j := v]], M, N);
      return Ok(());
    }

    /** True iff every element equals the one at the same index in `m`. */
    method Equals(m: Matrix) returns (equal: bool)
      requires Valid() && m.Valid() && m.M == M && m.N == N
      ensures equal <==> forall i, j :: 0 <= i < M && 0 <= j < N ==> elm[i, j] == m.elm[i, j]
      ensures equal <==> Value() == m.Value()
    {
      var i := 0;
      while i < M
        invariant 0 <= i <= M
        invariant forall p, q :: 0 <= p < i && 0 <= q < N ==> elm[p, q] == m.elm[p, q]
      {
        var j := 0;
        while j < N
          invariant 0 <= j <= N
          invariant forall q :: 0 <= q < j ==> elm[i, q] == m.elm[i, q]
        {
          if elm[i, j] != m.elm[i, j] {
            assert Value()[i][j] != m.Value()[i][j];
            return false;
          }
          j := j + 1;
        }
        i := i + 1;
      }
      GridEq(Value(), m.Value(), M, N);
      return true;
    }

    /** True iff some element differs from the one at the same index in `m`. */
    method NotEquals(m: Matrix) returns (differ: bool)
      requires Valid() && m.Valid() && m.M == M && m.N == N
      ensures differ <==> exists i, j :: 0 <= i < M && 0 <= j < N && elm[i, j] != m.elm[i, j]
      ensures differ <==> Value() != m.Value()
    {
      var equal := Equals(m);
      differ := !equal;
    }

    /** Row i of this matrix times column j of `m`: the innermost loop of the product. */
    method RowTimesColumn(m: Matrix, i: nat, j: nat) returns (s: int)
      requires Valid() && m.Valid() && m.M == N && i < M && j < m.N
      ensures s == Dot(Value()[i], Column(m.Value(), j))
    {
      ghost var row, col := Value()[i], Column(m.Value(), j);
      s := 0;
      var t := 0;
      while t < N
        invariant 0 <= t <= N
        invariant s == Dot(row[..t], col[..t])
      {
        assert row[..t + 1][..t] == row[..t];
        assert col[..t + 1][..t] == col[..t];
        s := s + elm[i, t] * m.elm[t, j];
        t := t + 1;
      }
      assert row[..N] == row && col[..N] == col;
    }

    /** The product with an N x M matrix, as a new M x M matrix. */
    method Mul(m: Matrix) returns (r: Matrix)
      requires Valid() && m.Valid() && m.M == N && m.N == M
      ensures fresh(r) && fresh(r.elm) && r.Valid() && r.M == M && r.N == M
      ensures r.Value() == Product(Value(), m.Value(), M, N)
    {
      ghost var product := Product(Value(), m.Value(), M, N);
      r := new Matrix.Identity(M, M);
      var i := 0;
      while i < M
        invariant 0 <= i <= M
        invariant forall p, q :: 0 <= p < i && 0 <= q < M ==> r.elm[p, q] == product[p][q]
      {
        var j := 0;
        while j < M
          invariant 0 <= j <= M
          invariant forall p, q :: 0 <= p < i && 0 <= q < M ==> r.elm[p, q] == product[p][q]
          invariant forall q :: 0 <= q < j ==> r.elm[i, q] == product[i][q]
        {
          var s := RowTimesColumn(m, i, j);
          r.elm[i, j] := s;
          j := j + 1;
        }
        i := i + 1;
      }
      GridEq(r.Value(), product, M, M);
    }

    /** The sum of the main diagonal of a square matrix. */
    method Trace() returns (t: int)
      requires Valid() && M == N
      ensures t == DiagonalSum(Value(), M)
    {
      t := 0;
      var i := 0;
      while i < M
        invariant 0 <= i <= M
        invariant t == DiagonalSum(Value(), i)
      {
        t := t + elm[i, i];
        i := i + 1;
      }
    }

    /** Transposes a square matrix in place by swapping across the diagonal. */
    method Transpose()
      requires Valid() && M == N
      modifies elm
      ensures Valid()
      ensures Value() == Transposed(old(Value()), M)
    {
      ghost var g := Value();
      var i := 1;
      while i < M
        invariant 1 <= i && (M >= 1 ==> i <= M)
        invariant forall p, q :: 0 <= p < M && 0 <= q < M ==>
                    elm[p, q] == if p < i && q < i then g[q][p] else g[p][q]
      {
        var j := 0;
        while j < i
          invariant 0 <= j <= i
          invariant forall p, q :: 0 <= p < M && 0 <= q < M ==>
                      elm[p, q] == if (p < i && q < i) || (p == i && q < j) || (q == i && p < j)
                                   then g[q][p] else g[p][q]
        {
          var tmp := elm[i, j];
          elm[i, j] := elm[j, i];
          elm[j, i] := tmp;
          j := j + 1;
        }
        i := i + 1;
      }
      GridEq(Value(), Transposed(g, M), M, M);
    }

    /** A new (M + 1) x (N + 1) matrix: the identity pattern overwritten by
        this matrix's elements. */
    method GetExpanded() returns (r: Matrix)
      requires Valid()
      ensures fresh(r) && fresh(r.elm) && r.Valid() && r.M == M + 1 && r.N == N + 1
      ensures r.Value() == Expanded(Value(), M, N)
    {
      ghost var g := Value();
      r := new Matrix.Identity(M + 1, N + 1);
      var i := 0;
      while i < M
        invariant 0 <= i <= M
        invariant forall p, q :: 0 <= p < M + 1 && 0 <= q < N + 1 ==>
                    r.elm[p, q] == if p < i && q < N then g[p][q] else if p == q then 1 else 0
      {
        var j := 0;
        while j < N
          invariant 0 <= j <= N
          invariant forall p, q :: 0 <= p < M + 1 && 0 <= q < N + 1 ==>
                      r.elm[p, q] == if (p < i && q < N) || (p == i && q < j) then g[p][q]
                                     else if p == q then 1 else 0
        {
          r.elm[i, j] := elm[i, j];
          j := j + 1;
        }
        i := i + 1;
      }
      GridEq(r.Value(), Expanded(g, M, N), M + 1, N + 1);
    }

    /** A new (M - 1) x (N - 1) matrix holding the leading block. */
    method GetReduced() returns (r: Matrix)
      requires Valid() && M >= 1 && N >= 1
      ensures fresh(r) && fresh(r.elm) && r.Valid() && r.M == M - 1 && r.N == N - 1
      ensures r.Value() == Reduced(Value(), M, N)
    {
      ghost var g := Value();
      r := new Matrix.Identity(M - 1, N - 1);
      var i := 0;
      while i < M - 1
        invariant 0 <= i <= M - 1
        invariant forall p, q :: 0 <= p < i && 0 <= q < N - 1 ==> r.elm[p, q] == g[p][q]
      {
        var j := 0;
        while j < N - 1
          invariant 0 <= j <= N - 1
          invariant forall p, q :: 0 <= p < i && 0 <= q < N - 1 ==> r.elm[p, q] == g[p][q]
          invariant forall q :: 0 <= q < j ==> r.elm[i, q] == g[i][q]
        {
          r.elm[i, j] := elm[i, j];
          j := j + 1;
        }
        i := i + 1;
      }
      GridEq(r.Value(), Reduced(g, M, N), M - 1, N - 1);
    }

    /** Writes the elements into `a` in row-major order. */
    method ToArray(a: array<int>)
      requires Valid() && a.Length == M * N
      modifies a
      ensures a[..] == RowMajor(Value(), M, N)
    {
      ghost var g := Value();
      var i := 0;
      while i < M
        invariant 0 <= i <= M
        invariant i * N <= M * N
        invariant a[..i * N] == RowMajor(g[..i], i, N)
      {
        var j := 0;
        RowMajorStep(g, M, N, i);
        while j < N
          invariant 0 <= j <= N
          invariant a[..i * N + j] == RowMajor(g[..i], i, N) + g[i][..j]
        {
          IndexInRange(i, j, M, N);
          ghost var done := a[..i * N + j];
          a[i * N + j] := elm[i, j];
          assert a[..i * N + j + 1] == done + [g[i][j]];
          assert g[i][..j + 1] == g[i][..j] + [g[i][j]];
          j := j + 1;
        }
        assert g[i][..N] == g[i];
        i := i + 1;
      }
      assert g[..M] == g && a[..M * N] == a[..];
    }
  }
}
