/**
 * The few numpy array operations the pipeline relies on: linspace, meshgrid in both
 * index orders, ravel, reshape and size. Two-dimensional arrays are sequences of rows.
 */
module Arrays {

  /** `g` has `rows` rows of `cols` entries each. */
  predicate IsRect<T>(g: seq<seq<T>>, rows: nat, cols: nat)
  {
    |g| == rows && forall i :: 0 <= i < |g| ==> |g[i]| == cols
  }

  /** The second entry of numpy's `shape` for a two-dimensional array. */
  function Cols<T>(g: seq<seq<T>>): nat
  {
    if |g| == 0 then 0 else |g[0]|
  }

  predicate Rectangular<T>(g: seq<seq<T>>)
  {
    IsRect(g, |g|, Cols(g))
  }

  /** numpy.linspace(start, stop, num): `num` evenly spaced values from start to stop inclusive. */
  function Linspace(start: real, stop: real, num: nat): (r: seq<real>)
    ensures |r| == num
    ensures num > 0 ==> r[0] == start
    ensures num > 1 ==> r[num - 1] == stop
    ensures forall i :: 0 <= i < num ==> r[i] == start + (i as real) * LinspaceStep(start, stop, num)
  {
    if num == 1 then [start]
    else seq(num, i => start + (i as real) * LinspaceStep(start, stop, num))
  }

  /** The spacing of a linspace: the interval split into `num - 1` equal parts. */
  function LinspaceStep(start: real, stop: real, num: nat): real
  {
    if num <= 1 then 0.0 else (stop - start) / ((num - 1) as real)
  }

  /** Consecutive points of a linspace are one step apart. */
  lemma LinspaceSpacing(start: real, stop: real, num: nat, i: nat)
    requires num > 1 && i < num - 1
    ensures Linspace(start, stop, num)[i + 1] - Linspace(start, stop, num)[i] == (stop - start) / ((num - 1) as real)
  {
    var r, step := Linspace(start, stop, num), LinspaceStep(start, stop, num);
    assert r[i + 1] == start + (i as real) * step + step;
  }

  /**
   * numpy.meshgrid(x, y) with the default 'xy' indexing: the rows follow `y`, the columns `x`.
   * The first component repeats `x` in every row, the second holds `y[i]` all along row `i`.
   */
  function MeshgridXY<T>(x: seq<T>, y: seq<T>): (r: (seq<seq<T>>, seq<seq<T>>))
    ensures IsRect(r.0, |y|, |x|) && IsRect(r.1, |y|, |x|)
    ensures forall i, j :: 0 <= i < |y| && 0 <= j < |x| ==> r.0[i][j] == x[j] && r.1[i][j] == y[i]
  {
    (seq(|y|, _ => x), seq(|y|, i requires 0 <= i < |y| => seq(|x|, _ => y[i])))
  }

  /**
   * numpy.meshgrid(a, b, indexing='ij'): the rows follow `a`, the columns `b`.
   * The first component holds `a[i]` all along row `i`, the second repeats `b` in every row.
   */
  function MeshgridIJ<T>(a: seq<T>, b: seq<T>): (r: (seq<seq<T>>, seq<seq<T>>))
    ensures IsRect(r.0, |a|, |b|) && IsRect(r.1, |a|, |b|)
    ensures forall i, j :: 0 <= i < |a| && 0 <= j < |b| ==> r.0[i][j] == a[i] && r.1[i][j] == b[j]
  {
    (seq(|a|, i requires 0 <= i < |a| => seq(|b|, _ => a[i])), seq(|a|, _ => b))
  }

  /** Meshing `(y, x)` in 'ij' order gives the same two arrays as meshing `(x, y)` in 'xy' order, swapped. */
  lemma MeshgridIJIsSwappedXY<T>(x: seq<T>, y: seq<T>)
    ensures MeshgridIJ(y, x) == (MeshgridXY(x, y).1, MeshgridXY(x, y).0)
  {
    var (yi, xi) := MeshgridIJ(y, x);
    var (xx, yx) := MeshgridXY(x, y);
    assert |yi| == |yx| && forall i :: 0 <= i < |yi| ==> yi[i] == yx[i];
    assert |xi| == |xx| && forall i :: 0 <= i < |xi| ==> xi[i] == xx[i];
  }

  /** numpy.ravel: the rows of `g` one after the other (C order). */
  function Ravel<T>(g: seq<seq<T>>): seq<T>
  {
    if |g| == 0 then [] else g[0] + Ravel(g[1..])
  }

  /** numpy's `size`: the number of entries. */
  function Size<T>(g: seq<seq<T>>): nat
  {
    |Ravel(g)|
  }

  lemma {:induction false} RavelLength<T>(g: seq<seq<T>>, rows: nat, cols: nat)
    requires IsRect(g, rows, cols)
    ensures |Ravel(g)| == rows * cols
  {
    if rows > 0 {
      RavelLength(g[1..], rows - 1, cols);
    }
  }

  lemma {:induction false} MulMonotone(a: nat, b: nat, c: nat)
    requires a <= b
    ensures a * c <= b * c
  {
    if a < b {
      MulMonotone(a, b - 1, c);
      assert (b - 1) * c + c == b * c;
    }
  }

  /** Row `i` of a `rows` by `cols` array ends inside the array. */
  lemma RowEnd(i: nat, rows: nat, cols: nat)
    requires i < rows
    ensures i * cols + cols <= rows * cols
  {
    MulMonotone(i + 1, rows, cols);
    assert (i + 1) * cols == i * cols + cols;
  }

  /** Entry `(i, j)` of a rectangular array sits at position `i * cols + j` of its ravel. */
  lemma {:induction false} RavelAt<T>(g: seq<seq<T>>, rows: nat, cols: nat, i: nat, j: nat)
    requires IsRect(g, rows, cols) && i < rows && j < cols
    ensures i * cols + j < |Ravel(g)| && Ravel(g)[i * cols + j] == g[i][j]
  {
    RavelLength(g, rows, cols);
    RowEnd(i, rows, cols);
    if i > 0 {
      RavelAt(g[1..], rows - 1, cols, i - 1, j);
      assert (i - 1) * cols + j == i * cols + j - cols;
    }
  }

  /** numpy's reshape of a flat array into `rows` rows of `cols` entries (C order). */
  function Reshape<T>(flat: seq<T>, rows: nat, cols: nat): (r: seq<seq<T>>)
    requires |flat| == rows * cols
    ensures IsRect(r, rows, cols)
  {
    seq(rows, i requires 0 <= i < rows => ReshapeRow(flat, rows, cols, i))
  }

  function ReshapeRow<T>(flat: seq<T>, rows: nat, cols: nat, i: nat): (r: seq<T>)
    requires |flat| == rows * cols && i < rows
    ensures |r| == cols
  {
    RowEnd(i, rows, cols);
    flat[i * cols .. i * cols + cols]
  }

  /** Entry `(i, j)` of the reshape is entry `i * cols + j` of the flat array. */
  lemma ReshapeAt<T>(flat: seq<T>, rows: nat, cols: nat, i: nat, j: nat)
    requires |flat| == rows * cols && i < rows && j < cols
    ensures i * cols + j < |flat| && Reshape(flat, rows, cols)[i][j] == flat[i * cols + j]
  {
    RowEnd(i, rows, cols);
  }

  /** Reshaping the ravel of a rectangular array to its own shape gives the array back. */
  lemma ReshapeRavel<T>(g: seq<seq<T>>, rows: nat, cols: nat)
    requires IsRect(g, rows, cols)
    ensures |Ravel(g)| == rows * cols && Reshape(Ravel(g), rows, cols) == g
  {
    RavelLength(g, rows, cols);
    var r := Reshape(Ravel(g), rows, cols);
    forall i | 0 <= i < rows
      ensures r[i] == g[i]
    {
      forall j | 0 <= j < cols
        ensures r[i][j] == g[i][j]
      {
        RavelAt(g, rows, cols, i, j);
        ReshapeAt(Ravel(g), rows, cols, i, j);
      }
    }
  }

  /** `g[:, c]`: column `c` of a two-dimensional array. */
  function ColumnOf<T>(g: seq<seq<T>>, c: nat): (r: seq<T>)
    requires forall i :: 0 <= i < |g| ==> c < |g[i]|
    ensures |r| == |g| && forall i :: 0 <= i < |g| ==> r[i] == g[i][c]
  {
    seq(|g|, i requires 0 <= i < |g| => g[i][c])
  }

  /**
   * A chain of lists, each the previous one with one more element: every element
   * keeps its position in the last list.
   */
  lemma {:induction false} SnocChainAt<T>(chain: seq<seq<T>>, elems: seq<T>, i: nat)
    requires |chain| == |elems| + 1 && chain[0] == []
    requires forall k :: 0 <= k < |elems| ==> chain[k + 1] == chain[k] + [elems[k]]
    requires i < |elems|
    ensures |chain[|elems|]| == |elems| && chain[|elems|][i] == elems[i]
    decreases |elems|
  {
    var n := |elems| - 1;
    if i < n {
      SnocChainAt(chain[..n + 1], elems[..n], i);
    }
    SnocChainLength(chain, elems, n);
  }

  lemma {:induction false} SnocChainLength<T>(chain: seq<seq<T>>, elems: seq<T>, k: nat)
    requires |chain| == |elems| + 1 && chain[0] == []
    requires forall k :: 0 <= k < |elems| ==> chain[k + 1] == chain[k] + [elems[k]]
    requires k <= |elems|
    ensures |chain[k]| == k
  {
    if k > 0 {
      SnocChainLength(chain, elems, k - 1);
    }
  }
}
