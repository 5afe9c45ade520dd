/** The numpy constructions the repository uses to build coordinate arrays:
    `linspace`, elementwise scaling, and `stack(meshgrid(xs, ys), axis=-1)`, on exact
    reals, as datasets of the file model. */
module Grids {
  import opened PyValues
  import opened H5

  /** `np.linspace(a, b, n)`: `n` evenly spaced values from `a` to `b`, both included. */
  function Linspace(a: real, b: real, n: nat): (xs: seq<real>)
    ensures |xs| == n
    ensures n > 0 ==> xs[0] == a
  {
    if n == 1 then [a]
    else seq(n, k requires 0 <= k < n => a + (k as real) * (b - a) / ((n - 1) as real))
  }

  /** `xs * f`, elementwise. */
  function Scale(xs: seq<real>, f: real): (ys: seq<real>)
    ensures |ys| == |xs|
    ensures forall k | 0 <= k < |xs| :: ys[k] == xs[k] * f
  {
    seq(|xs|, k requires 0 <= k < |xs| => xs[k] * f)
  }

  /** A one-dimensional float dataset. */
  function Vector(xs: seq<real>): (d: Data)
    ensures d.shape == [|xs|] && |d.cells| == |xs|
    ensures forall k | 0 <= k < |xs| :: d.cells[k] == PFloat(xs[k])
  {
    Data([|xs|], seq(|xs|, k requires 0 <= k < |xs| => PFloat(xs[k])))
  }

  /** Cell `c` of the mesh, in row-major order over the shape `(|ys|, |xs|, 2)`. */
  function MeshCell(xs: seq<real>, ys: seq<real>, c: nat): PyValue
    requires c < |ys| * |xs| * 2
  {
    var n := |xs|;
    assert n > 0;
    var pixel := c / 2;
    var i := pixel / n;
    var j := pixel % n;
    assert i < |ys| by { PixelRow(pixel, n, |ys|); }
    if c % 2 == 0 then PFloat(xs[j]) else PFloat(ys[i])
  }

  /** `np.stack(np.meshgrid(xs, ys), axis=-1)`: entry `[i][j]` is the pair `(xs[j], ys[i])`. */
  function Mesh(xs: seq<real>, ys: seq<real>): (d: Data)
    ensures d.shape == [|ys|, |xs|, 2] && |d.cells| == |ys| * |xs| * 2
  {
    Data([|ys|, |xs|, 2], seq(|ys| * |xs| * 2, c requires 0 <= c < |ys| * |xs| * 2 => MeshCell(xs, ys, c)))
  }

  /** Where a point of the stacked mesh lies: cell pair (i, j) holds (x, y). */
  predicate PointAt(m: Data, i: nat, j: nat, x: real, y: real) {
    |m.shape| == 3 && (i * m.shape[1] + j) * 2 + 1 < |m.cells|
    && m.cells[(i * m.shape[1] + j) * 2] == PFloat(x) && m.cells[(i * m.shape[1] + j) * 2 + 1] == PFloat(y)
  }

  // ------------------------------------------------------------------ lemmas

  lemma PixelRow(pixel: nat, n: nat, rows: nat)
    requires n > 0 && pixel < rows * n
    ensures pixel / n < rows
  {
    DivBelow(pixel, n, rows);
  }

  lemma DivBelow(x: nat, d: nat, q: nat)
    requires d > 0 && x < q * d
    ensures x / d < q
  {
    var q' := x / d;
    assert x == q' * d + x % d;
    if q' >= q {
      MulMono(q, q', d);
    }
  }

  lemma MulMono(a: nat, b: nat, d: nat)
    requires a <= b
    ensures a * d <= b * d
  {
    assert b * d == a * d + (b - a) * d;
  }

  /** Euclidean division is determined by quotient and remainder. */
  lemma DivUnique(x: int, d: int, q: int, r: int)
    requires d > 0 && 0 <= r < d && x == q * d + r
    ensures x / d == q && x % d == r
  {
    var q' := x / d;
    var r' := x % d;
    assert x == q' * d + r';
    assert (q - q') * d == r' - r;
    ProductSign(q - q', d);
  }

  lemma ProductSign(k: int, d: int)
    requires d > 0
    ensures k >= 1 ==> k * d >= d
    ensures k <= -1 ==> k * d <= -d
  {
    if k >= 1 {
      assert k * d == (k - 1) * d + d;
    } else if k <= -1 {
      assert k * d == (k + 1) * d - d;
    }
  }

  /** The last value is `b` exactly. */
  lemma LinspaceEnds(a: real, b: real, n: nat)
    requires n > 1
    ensures Linspace(a, b, n)[n - 1] == b
  {
    var m := (n - 1) as real;
    assert m * (b - a) / m == b - a;
  }

  /** Consecutive values are `(b - a) / (n - 1)` apart. */
  lemma LinspaceStep(a: real, b: real, n: nat, k: nat)
    requires n > 1 && k + 1 < n
    ensures Linspace(a, b, n)[k + 1] - Linspace(a, b, n)[k] == (b - a) / ((n - 1) as real)
  {
    LinspaceAt(a, b, n, k);
    LinspaceAt(a, b, n, k + 1);
    NextFraction(a, b - a, (n - 1) as real, k, Linspace(a, b, n)[k], Linspace(a, b, n)[k + 1]);
  }

  lemma LinspaceAt(a: real, b: real, n: nat, k: nat)
    requires n > 1 && k < n
    ensures Linspace(a, b, n)[k] == a + (k as real) * (b - a) / ((n - 1) as real)
  {
  }

  /** One step more along the line adds `d / m`. */
  lemma NextFraction(a: real, d: real, m: real, k: nat, x: real, y: real)
    requires m > 0.0
    requires x == a + (k as real) * d / m && y == a + ((k + 1) as real) * d / m
    ensures y - x == d / m
  {
    var r := k as real;
    assert (k + 1) as real == r + 1.0;
    assert (r + 1.0) * d == r * d + d;
    assert (r * d + d) / m == r * d / m + d / m;
  }

  lemma CellIndex(i: nat, j: nat, n: nat)
    requires j < n
    ensures ((i * n + j) * 2) / 2 == i * n + j && ((i * n + j) * 2) % 2 == 0
    ensures ((i * n + j) * 2 + 1) / 2 == i * n + j && ((i * n + j) * 2 + 1) % 2 == 1
    ensures (i * n + j) / n == i && (i * n + j) % n == j
  {
    DivUnique((i * n + j) * 2, 2, i * n + j, 0);
    DivUnique((i * n + j) * 2 + 1, 2, i * n + j, 1);
    DivUnique(i * n + j, n, i, j);
  }

  lemma RowBound(i: nat, j: nat, n: nat, rows: nat)
    requires i < rows && j < n
    ensures (i * n + j) * 2 + 1 < rows * n * 2
  {
    MulMono(i + 1, rows, n);
  }

  /** Entry `[i][j]` of the mesh holds `xs[j]` then `ys[i]`. */
  lemma MeshAt(xs: seq<real>, ys: seq<real>, i: nat, j: nat)
    requires i < |ys| && j < |xs|
    ensures (i * |xs| + j) * 2 + 1 < |Mesh(xs, ys).cells|
    ensures Mesh(xs, ys).cells[(i * |xs| + j) * 2] == PFloat(xs[j])
    ensures Mesh(xs, ys).cells[(i * |xs| + j) * 2 + 1] == PFloat(ys[i])
  {
    var n := |xs|;
    CellIndex(i, j, n);
    RowBound(i, j, n, |ys|);
    var c := (i * n + j) * 2;
    assert Mesh(xs, ys).cells[c] == MeshCell(xs, ys, c);
    assert Mesh(xs, ys).cells[c + 1] == MeshCell(xs, ys, c + 1);
  }

  /** ... which `PointAt` reads back. */
  lemma MeshPoint(xs: seq<real>, ys: seq<real>, i: nat, j: nat)
    requires i < |ys| && j < |xs|
    ensures PointAt(Mesh(xs, ys), i, j, xs[j], ys[i])
  {
    MeshAt(xs, ys, i, j);
  }

  // ------------------------------------------------------------------ min and max

  /** Python's `min` over a non-empty sequence, scanning left to right. */
  function Min(s: seq<real>): real
    requires |s| > 0
    decreases |s|
  {
    if |s| == 1 then s[0]
    else var m := Min(s[..|s| - 1]); if s[|s| - 1] < m then s[|s| - 1] else m
  }

  /** Python's `max` over a non-empty sequence, scanning left to right. */
  function Max(s: seq<real>): real
    requires |s| > 0
    decreases |s|
  {
    if |s| == 1 then s[0]
    else var m := Max(s[..|s| - 1]); if s[|s| - 1] > m then s[|s| - 1] else m
  }

  /** `min` is an element of the sequence and no element is smaller. */
  lemma {:induction false} MinIsLeast(s: seq<real>)
    requires |s| > 0
    ensures Min(s) in s
    ensures forall k | 0 <= k < |s| :: Min(s) <= s[k]
    decreases |s|
  {
    if |s| > 1 {
      var init := s[..|s| - 1];
      MinIsLeast(init);
      assert forall k | 0 <= k < |s| - 1 :: s[k] == init[k];
    }
  }

  /** `max` is an element of the sequence and no element is larger. */
  lemma {:induction false} MaxIsGreatest(s: seq<real>)
    requires |s| > 0
    ensures Max(s) in s
    ensures forall k | 0 <= k < |s| :: s[k] <= Max(s)
    decreases |s|
  {
    if |s| > 1 {
      var init := s[..|s| - 1];
      MaxIsGreatest(init);
      assert forall k | 0 <= k < |s| - 1 :: s[k] == init[k];
    }
  }
}
