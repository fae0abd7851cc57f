/** The wgpu-math `Matrix`: a column-major matrix of 2 to 4 columns and 2 to
    4 rows stored in a Float32Array laid out for WGSL, where every column of
    a 3-row matrix is padded to 4 floats. */
module WgpuMatrix {
  import opened Wrappers
  import opened JsNumber
  import opened WgpuVector

  datatype MatrixError =
    | InvalidShape          // c or r is not an integer in [2, 4]
    | DataSizeMismatch      // initial data does not hold c * r values
    | NotSquare             // identity or translate on a non-square matrix
    | IndexOutOfRange       // row or column index outside the matrix
    | DimensionMismatch     // a.columns != b.rows in a product
    | TranslationTooSmall   // a 2x2 translation was asked for
    | TranslationVectorSize // the translation vector does not have n - 1 values

  predicate ValidShape(c: int, r: int) {
    ValidSize(c) && ValidSize(r)
  }

  /** Distance in floats between the starts of two columns. */
  function Stride(r: int): int {
    Lanes(r)
  }

  /** Column i, row j (j may be a padding row) sits at i * Stride(r) + j. */
  lemma SlotInRange(c: int, r: int, i: int, j: int)
    requires ValidShape(c, r) && 0 <= i < c && 0 <= j < Stride(r)
    ensures 0 <= i * Stride(r) + j < c * Stride(r)
    ensures (i * Stride(r) + j) / Stride(r) == i && (i * Stride(r) + j) % Stride(r) == j
  {
  }

  /** Every storage slot belongs to one column and one (possibly padding) row. */
  lemma SlotOf(c: int, r: int, k: int)
    requires ValidShape(c, r) && 0 <= k < c * Stride(r)
    ensures 0 <= k / Stride(r) < c && 0 <= k % Stride(r) < Stride(r)
    ensures k == (k / Stride(r)) * Stride(r) + k % Stride(r)
  {
  }

  /** The float at column i, row j of column-major storage with the given stride. */
  function Cell(s: seq<real>, stride: int, i: int, j: int): real
    requires 0 <= i && 0 <= j < stride && i * stride + j < |s|
  {
    s[i * stride + j]
  }

  /** The value of a matrix: its shape and its padded column-major storage. */
  datatype Mat = Mat(columns: int, rows: int, data: seq<real>) {

    ghost predicate Valid() {
      ValidShape(columns, rows) && |data| == columns * Stride(rows)
    }

    /** The float at column i, row j; rows >= this.rows are padding. */
    function At(i: int, j: int): real
      requires Valid() && 0 <= i < columns && 0 <= j < Stride(rows)
    {
      SlotInRange(columns, rows, i, j);
      Cell(data, Stride(rows), i, j)
    }

    /** Every padding float is zero. */
    ghost predicate PaddingZero()
      requires Valid()
    {
      forall i, j :: 0 <= i < columns && rows <= j < Stride(rows) ==> At(i, j) == 0.0
    }
  }

  /** Two matrices of one shape that agree on every slot are equal. */
  lemma {:induction false} MatExtensional(m: Mat, n: Mat)
    requires m.Valid() && n.Valid() && m.columns == n.columns && m.rows == n.rows
    requires forall i, j :: 0 <= i < m.columns && 0 <= j < Stride(m.rows) ==> m.At(i, j) == n.At(i, j)
    ensures m == n
  {
    forall k | 0 <= k < |m.data|
      ensures m.data[k] == n.data[k]
    {
      SlotOf(m.columns, m.rows, k);
      var i, j := k / Stride(m.rows), k % Stride(m.rows);
      assert m.At(i, j) == n.At(i, j);
    }
  }

  function Zeros(n: nat): (s: seq<real>)
    ensures |s| == n && forall k :: 0 <= k < n ==> s[k] == 0.0
  {
    seq(n, _ => 0.0)
  }

  /** Unpadded 3-row column-major data with a zero appended to every column:
      the slices the constructor spreads for a 3-row matrix. */
  function Padded(d: seq<real>, c: nat): (s: seq<real>)
    requires |d| == 3 * c
    ensures |s| == 4 * c
    ensures forall i, j :: 0 <= i < c && 0 <= j < 3 ==> Cell(s, 4, i, j) == Cell(d, 3, i, j)
    ensures forall i :: 0 <= i < c ==> Cell(s, 4, i, 3) == 0.0
    decreases c
  {
    if c == 0 then []
    else
      var rest := Padded(d[3..], c - 1);
      var s := d[..3] + [0.0] + rest;
      assert forall i, j :: 1 <= i < c && 0 <= j < 4 ==> Cell(s, 4, i, j) == Cell(rest, 4, i - 1, j);
      assert forall i, j :: 1 <= i < c && 0 <= j < 3 ==> Cell(d, 3, i, j) == Cell(d[3..], 3, i - 1, j);
      s
  }

  /** The storage `new Matrix(c, r, data)` builds: zeros without data, the
      data itself when r != 3, the padded data when r == 3. */
  function Layout(c: int, r: int, init: Option<seq<real>>): (m: Mat)
    requires ValidShape(c, r)
    requires init.Some? ==> |init.value| == c * r
    ensures m.Valid() && m.columns == c && m.rows == r && m.PaddingZero()
    ensures forall i, j :: 0 <= i < c && 0 <= j < r ==>
              m.At(i, j) == if init.Some? then Cell(init.value, r, i, j) else 0.0
  {
    var data :=
      if r == 3 && init.Some? then Padded(init.value, c)
      else if r == 3 then Zeros(c * 4)
      else if init.Some? then init.value
      else Zeros(c * r);
    Mat(c, r, data)
  }

  /** The data `identity()` stores: ones on the diagonal, zeros elsewhere. */
  function IdentityMat(n: int): (m: Mat)
    requires ValidSize(n)
    ensures m.Valid() && m.columns == n && m.rows == n
    ensures forall i, j :: 0 <= i < n && 0 <= j < Stride(n) ==> m.At(i, j) == if i == j then 1.0 else 0.0
  {
    if n == 2 then Mat(2, 2, [1.0, 0.0, 0.0, 1.0])
    else if n == 3 then Mat(3, 3, [1.0, 0.0, 0.0, 0.0, 0.0, 1.0, 0.0, 0.0, 0.0, 0.0, 1.0, 0.0])
    else Mat(4, 4, [1.0, 0.0, 0.0, 0.0, 0.0, 1.0, 0.0, 0.0, 0.0, 0.0, 1.0, 0.0, 0.0, 0.0, 0.0, 1.0])
  }

  /** The components of `column(i)`: the i-th column without its padding. */
  function ColumnOf(m: Mat, i: int): (col: seq<real>)
    requires m.Valid() && 0 <= i < m.columns
    ensures |col| == m.rows && forall j :: 0 <= j < m.rows ==> col[j] == m.At(i, j)
  {
    SlotInRange(m.columns, m.rows, i, 0);
    SlotInRange(m.columns, m.rows, i, m.rows - 1);
    m.data[i * Stride(m.rows) .. i * Stride(m.rows) + m.rows]
  }

  /** The components of `row(j)`: entry j of every column, in column order. */
  function RowOf(m: Mat, j: int): (row: seq<real>)
    requires m.Valid() && 0 <= j < m.rows
    ensures |row| == m.columns && forall i :: 0 <= i < m.columns ==> row[i] == m.At(i, j)
  {
    seq(m.columns, i requires 0 <= i < m.columns => m.At(i, j))
  }

  /** Column i of a * b, unpadded: row j is dot(a.row(j), b.column(i)). */
  function ProductColumn(a: Mat, b: Mat, i: int): (col: seq<real>)
    requires a.Valid() && b.Valid() && a.columns == b.rows && 0 <= i < b.columns
    ensures |col| == a.rows
  {
    seq(a.rows, j requires 0 <= j < a.rows => DotPrefix(RowOf(a, j), ColumnOf(b, i), a.columns))
  }

  /** The first n columns of a * b as the flat list `multiply` pushes. */
  function ProductFlat(a: Mat, b: Mat, n: nat): (flat: seq<real>)
    requires a.Valid() && b.Valid() && a.columns == b.rows && n <= b.columns
    ensures |flat| == n * a.rows
  {
    if n == 0 then []
    else
      assert n * a.rows == (n - 1) * a.rows + a.rows;
      ProductFlat(a, b, n - 1) + ProductColumn(a, b, n - 1)
  }

  /** Entry (column i, row j) of the pushed list is dot(row j of a,
      column i of b): `multiply` lays the product out column by column. */
  lemma {:induction false} ProductFlatCell(a: Mat, b: Mat, n: nat, i: nat, j: nat)
    requires a.Valid() && b.Valid() && a.columns == b.rows && n <= b.columns
    requires i < n && j < a.rows
    ensures i * a.rows + j < |ProductFlat(a, b, n)|
    ensures Cell(ProductFlat(a, b, n), a.rows, i, j) == ProductColumn(a, b, i)[j]
    decreases n
  {
    var prev := ProductFlat(a, b, n - 1);
    var k := i * a.rows + j;
    if i < n - 1 {
      ProductFlatCell(a, b, n - 1, i, j);
      assert (prev + ProductColumn(a, b, n - 1))[k] == prev[k];
    } else {
      assert (prev + ProductColumn(a, b, n - 1))[k] == ProductColumn(a, b, n - 1)[j];
    }
  }

  /** a * b, of shape (b.columns, a.rows). */
  function Product(a: Mat, b: Mat): (m: Mat)
    requires a.Valid() && b.Valid() && a.columns == b.rows
    ensures m.Valid() && m.columns == b.columns && m.rows == a.rows && m.PaddingZero()
  {
    Layout(b.columns, a.rows, Some(ProductFlat(a, b, b.columns)))
  }

  /** Entry (column i, row j) of a * b is dot(a.row(j), b.column(i)). */
  lemma ProductAt(a: Mat, b: Mat, i: int, j: int)
    requires a.Valid() && b.Valid() && a.columns == b.rows
    requires 0 <= i < b.columns && 0 <= j < a.rows
    ensures Product(a, b).At(i, j) == DotPrefix(RowOf(a, j), ColumnOf(b, i), a.columns)
  {
    ProductFlatCell(a, b, b.columns, i, j);
  }

  /** The dot product against a unit (or zero) column picks one entry. */
  lemma {:induction false} DotPrefixUnit(a: seq<real>, b: seq<real>, n: nat, i: int)
    requires n <= |a| && n <= |b|
    requires forall k :: 0 <= k < n ==> b[k] == if k == i then 1.0 else 0.0
    ensures DotPrefix(a, b, n) == if 0 <= i < n then a[i] else 0.0
  {
    if n > 0 {
      DotPrefixUnit(a, b, n - 1, i);
    }
  }

  /** Component-wise sum of two translation vectors. */
  function Sum(v: seq<real>, w: seq<real>): (s: seq<real>)
    requires |v| == |w|
    ensures |s| == |v| && forall k :: 0 <= k < |v| ==> s[k] == v[k] + w[k]
  {
    seq(|v|, k requires 0 <= k < |v| => v[k] + w[k])
  }

  /** Storage offset of the translation part: the start of the last column. */
  function TranslationOffset(n: int): (offset: int)
    requires n == 3 || n == 4
    ensures offset == (n - 1) * Stride(n)
  {
    if n == 3 then 8 else 12
  }

  /** `Matrix.translation(n, v)`: the identity with the leading n - 1 floats
      of the last column overwritten by v. */
  function TranslationMat(n: int, v: seq<real>): (m: Mat)
    requires n == 3 || n == 4
    requires |v| == n - 1
    ensures m.Valid() && m.columns == n && m.rows == n && m.PaddingZero()
    ensures forall i, j :: 0 <= i < n - 1 && 0 <= j < Stride(n) ==> m.At(i, j) == if i == j then 1.0 else 0.0
    ensures forall j :: 0 <= j < n - 1 ==> m.At(n - 1, j) == v[j]
    ensures m.At(n - 1, n - 1) == 1.0
  {
    var id := IdentityMat(n).data;
    var offset := TranslationOffset(n);
    var m := Mat(n, n, seq(|id|, k requires 0 <= k < |id| =>
      if offset <= k < offset + |v| then v[k - offset] else id[k]));
    assert forall i, j :: 0 <= i < n && 0 <= j < Stride(n) ==> m.At(i, j) == if i == n - 1 && j < n - 1 then v[j] else IdentityMat(n).At(i, j);
    m
  }

  /** One entry of the product of two translations. */
  lemma TranslationComposeAt(n: int, v: seq<real>, w: seq<real>, i: int, j: int)
    requires n == 3 || n == 4
    requires |v| == n - 1 && |w| == n - 1
    requires 0 <= i < n && 0 <= j < n
    ensures Product(TranslationMat(n, w), TranslationMat(n, v)).At(i, j) == TranslationMat(n, Sum(v, w)).At(i, j)
  {
    var a, b := TranslationMat(n, w), TranslationMat(n, v);
    ProductAt(a, b, i, j);
    if i < n - 1 {
      DotPrefixUnit(RowOf(a, j), ColumnOf(b, i), n, i);
    } else {
      TranslationDotLast(n, v, w, j);
    }
  }

  /** The last column of the product: row j of the outer translation
      against the inner translation's last column. */
  lemma TranslationDotLast(n: int, v: seq<real>, w: seq<real>, j: int)
    requires n == 3 || n == 4
    requires |v| == n - 1 && |w| == n - 1
    requires 0 <= j < n
    ensures DotPrefix(RowOf(TranslationMat(n, w), j), ColumnOf(TranslationMat(n, v), n - 1), n)
         == TranslationMat(n, Sum(v, w)).At(n - 1, j)
  {
    var row, col := RowOf(TranslationMat(n, w), j), ColumnOf(TranslationMat(n, v), n - 1);
    assert DotPrefix(row, col, n) == DotPrefix(row, col, n - 1) + row[n - 1];
    DotPrefixSymmetric(row, col, n - 1);
    DotPrefixUnit(col, row, n - 1, j);
  }

  /** Storage that is the identity's with the translation vector written
      from the offset on is the translation matrix's. */
  lemma TranslationStorage(n: int, v: seq<real>, d: seq<real>)
    requires n == 3 || n == 4
    requires |v| == n - 1
    requires |d| == |IdentityMat(n).data|
    requires forall k :: 0 <= k < |d| ==>
               d[k] == if TranslationOffset(n) <= k < TranslationOffset(n) + |v| then v[k - TranslationOffset(n)] else IdentityMat(n).data[k]
    ensures d == TranslationMat(n, v).data
  {
  }

  /** Composing two translations adds their vectors: translate(v) then
      translate(w) is translation(v + w). */
  lemma TranslationCompose(n: int, v: seq<real>, w: seq<real>)
    requires n == 3 || n == 4
    requires |v| == n - 1 && |w| == n - 1
    ensures Product(TranslationMat(n, w), TranslationMat(n, v)) == TranslationMat(n, Sum(v, w))
  {
    var p, t := Product(TranslationMat(n, w), TranslationMat(n, v)), TranslationMat(n, Sum(v, w));
    forall i, j | 0 <= i < n && 0 <= j < Stride(n)
      ensures p.At(i, j) == t.At(i, j)
    {
      if j < n {
        TranslationComposeAt(n, v, w, i, j);
      }
    }
    MatExtensional(p, t);
  }

  /** The identity is a right unit of the product on square matrices whose
      padding is zero (every matrix the class builds). */
  lemma ProductIdentityRight(m: Mat)
    requires m.Valid() && m.columns == m.rows && m.PaddingZero()
    ensures Product(m, IdentityMat(m.columns)) == m
  {
    var n := m.columns;
    var id := IdentityMat(n);
    var p := Product(m, id);
    forall i, j | 0 <= i < n && 0 <= j < Stride(n)
      ensures p.At(i, j) == m.At(i, j)
    {
      if j < n {
        ProductAt(m, id, i, j);
        DotPrefixUnit(RowOf(m, j), ColumnOf(id, i), n, i);
      }
    }
    MatExtensional(p, m);
  }

  /** Construction example: a matrix without data is all zeros. */
  lemma ZeroLayoutExample()
    ensures Layout(3, 2, None).data == [0.0, 0.0, 0.0, 0.0, 0.0, 0.0]
  {
  }

  /** Construction example: a 3x3 matrix gets a zero after every column. */
  lemma PaddedLayoutExample()
    ensures Layout(3, 3, Some([3.0, 5.0, 8.0, 2.0, 4.0, 8.0, 4.0, 0.0, 2.0])).data
         == [3.0, 5.0, 8.0, 0.0, 2.0, 4.0, 8.0, 0.0, 4.0, 0.0, 2.0, 0.0]
  {
    var d := [3.0, 5.0, 8.0, 2.0, 4.0, 8.0, 4.0, 0.0, 2.0];
    assert d[3..] == [2.0, 4.0, 8.0, 4.0, 0.0, 2.0];
    assert d[3..][3..] == [4.0, 0.0, 2.0];
    assert Padded([4.0, 0.0, 2.0], 1) == [4.0, 0.0, 2.0, 0.0];
    assert Padded([2.0, 4.0, 8.0, 4.0, 0.0, 2.0], 2) == [2.0, 4.0, 8.0, 0.0, 4.0, 0.0, 2.0, 0.0];
    assert Padded(d, 3) == [3.0, 5.0, 8.0, 0.0, 2.0, 4.0, 8.0, 0.0, 4.0, 0.0, 2.0, 0.0];
  }

  /** Construction example: a 4x3 matrix gets a zero after every column. */
  lemma WidePaddedLayoutExample()
    ensures Layout(4, 3, Some([9.0, 5.0, 4.0, 0.0, 3.0, 3.0, 6.0, 7.0, 5.0, 7.0, 4.0, 6.0])).data
         == [9.0, 5.0, 4.0, 0.0, 0.0, 3.0, 3.0, 0.0, 6.0, 7.0, 5.0, 0.0, 7.0, 4.0, 6.0, 0.0]
  {
    var d := [9.0, 5.0, 4.0, 0.0, 3.0, 3.0, 6.0, 7.0, 5.0, 7.0, 4.0, 6.0];
    assert d[3..] == [0.0, 3.0, 3.0, 6.0, 7.0, 5.0, 7.0, 4.0, 6.0];
    assert d[3..][3..] == [6.0, 7.0, 5.0, 7.0, 4.0, 6.0];
    assert d[3..][3..][3..] == [7.0, 4.0, 6.0];
    assert Padded([7.0, 4.0, 6.0], 1) == [7.0, 4.0, 6.0, 0.0];
    assert Padded([6.0, 7.0, 5.0, 7.0, 4.0, 6.0], 2) == [6.0, 7.0, 5.0, 0.0, 7.0, 4.0, 6.0, 0.0];
    assert Padded([0.0, 3.0, 3.0, 6.0, 7.0, 5.0, 7.0, 4.0, 6.0], 3)
        == [0.0, 3.0, 3.0, 0.0, 6.0, 7.0, 5.0, 0.0, 7.0, 4.0, 6.0, 0.0];
    assert Padded(d, 4) == [9.0, 5.0, 4.0, 0.0, 0.0, 3.0, 3.0, 0.0, 6.0, 7.0, 5.0, 0.0, 7.0, 4.0, 6.0, 0.0];
  }

  /** Row and column access on a 4x3 matrix skip the padding. */
  lemma AccessExamples()
    ensures var m := Layout(4, 3, Some([0.0, 7.0, 3.0, 7.0, 1.0, 3.0, 5.0, 5.0, 5.0, 1.0, 2.0, 8.0]));
      && RowOf(m, 0) == [0.0, 7.0, 5.0, 1.0]
      && RowOf(m, 2) == [3.0, 3.0, 5.0, 8.0]
      && ColumnOf(m, 1) == [7.0, 1.0, 3.0]
      && ColumnOf(m, 3) == [1.0, 2.0, 8.0]
  {
  }

  /** Product of a 2x2 and a 3x2 matrix. */
  lemma ProductExample()
    ensures Product(Layout(2, 2, Some([1.0, -1.0, 0.0, 5.0])),
                    Layout(3, 2, Some([1.0, 4.0, 0.0, 5.0, 2.0, 4.0]))).data
         == [1.0, 19.0, 0.0, 25.0, 2.0, 18.0]
  {
    var a := Layout(2, 2, Some([1.0, -1.0, 0.0, 5.0]));
    var b := Layout(3, 2, Some([1.0, 4.0, 0.0, 5.0, 2.0, 4.0]));
    assert RowOf(a, 0) == [1.0, 0.0] && RowOf(a, 1) == [-1.0, 5.0];
    assert ColumnOf(b, 0) == [1.0, 4.0] && ColumnOf(b, 1) == [0.0, 5.0] && ColumnOf(b, 2) == [2.0, 4.0];
    assert DotPrefix([1.0, 0.0], [1.0, 4.0], 2) == 1.0 && DotPrefix([-1.0, 5.0], [1.0, 4.0], 2) == 19.0;
    assert DotPrefix([1.0, 0.0], [0.0, 5.0], 2) == 0.0 && DotPrefix([-1.0, 5.0], [0.0, 5.0], 2) == 25.0;
    assert DotPrefix([1.0, 0.0], [2.0, 4.0], 2) == 2.0 && DotPrefix([-1.0, 5.0], [2.0, 4.0], 2) == 18.0;
    assert ProductColumn(a, b, 0) == [1.0, 19.0];
    assert ProductColumn(a, b, 1) == [0.0, 25.0];
    assert ProductColumn(a, b, 2) == [2.0, 18.0];
    assert ProductFlat(a, b, 3) == [1.0, 19.0, 0.0, 25.0, 2.0, 18.0];
  }

  /** The rows of a padded 2x3 matrix skip the padding. */
  lemma PaddedRows(a: Mat)
    requires a == Mat(2, 3, [5.0, -2.0, 4.0, 0.0, 3.0, 1.0, 1.0, 0.0])
    ensures RowOf(a, 0) == [5.0, 3.0] && RowOf(a, 1) == [-2.0, 1.0] && RowOf(a, 2) == [4.0, 1.0]
  {
    assert a.At(0, 0) == 5.0 && a.At(1, 0) == 3.0;
    assert a.At(0, 1) == -2.0 && a.At(1, 1) == 1.0;
    assert a.At(0, 2) == 4.0 && a.At(1, 2) == 1.0;
  }

  /** The columns of the product of a 2x3 and a 2x2 matrix, from their
      rows and columns. */
  lemma PaddedProductColumns(a: Mat, b: Mat)
    requires a.Valid() && b.Valid() && a.columns == 2 && a.rows == 3 && b.columns == 2 && b.rows == 2
    requires RowOf(a, 0) == [5.0, 3.0] && RowOf(a, 1) == [-2.0, 1.0] && RowOf(a, 2) == [4.0, 1.0]
    requires ColumnOf(b, 0) == [-2.0, 5.0] && ColumnOf(b, 1) == [-1.0, 0.0]
    ensures ProductFlat(a, b, 2) == [5.0, 9.0, -3.0, -5.0, 2.0, -4.0]
  {
    assert DotPrefix([5.0, 3.0], [-2.0, 5.0], 2) == 5.0 && DotPrefix([-2.0, 1.0], [-2.0, 5.0], 2) == 9.0;
    assert DotPrefix([4.0, 1.0], [-2.0, 5.0], 2) == -3.0 && DotPrefix([5.0, 3.0], [-1.0, 0.0], 2) == -5.0;
    assert DotPrefix([-2.0, 1.0], [-1.0, 0.0], 2) == 2.0 && DotPrefix([4.0, 1.0], [-1.0, 0.0], 2) == -4.0;
    assert ProductColumn(a, b, 0) == [5.0, 9.0, -3.0];
    assert ProductColumn(a, b, 1) == [-5.0, 2.0, -4.0];
  }

  /** Product of a 2x3 and a 2x2 matrix: the 3-row result is padded. */
  lemma PaddedProductExample()
    ensures Product(Layout(2, 3, Some([5.0, -2.0, 4.0, 3.0, 1.0, 1.0])),
                    Layout(2, 2, Some([-2.0, 5.0, -1.0, 0.0]))).data
         == [5.0, 9.0, -3.0, 0.0, -5.0, 2.0, -4.0, 0.0]
  {
    var d := [5.0, -2.0, 4.0, 3.0, 1.0, 1.0];
    assert d[3..] == [3.0, 1.0, 1.0];
    var a := Layout(2, 3, Some(d));
    assert a == Mat(2, 3, [5.0, -2.0, 4.0, 0.0, 3.0, 1.0, 1.0, 0.0]);
    var b := Layout(2, 2, Some([-2.0, 5.0, -1.0, 0.0]));
    PaddedRows(a);
    assert ColumnOf(b, 0) == [-2.0, 5.0] && ColumnOf(b, 1) == [-1.0, 0.0];
    PaddedProductColumns(a, b);
    var f := [5.0, 9.0, -3.0, -5.0, 2.0, -4.0];
    assert f[3..] == [-5.0, 2.0, -4.0];
    assert Padded(f, 2) == [5.0, 9.0, -3.0, 0.0, -5.0, 2.0, -4.0, 0.0];
  }

  /** The rows of a 3x2 matrix. */
  lemma WideRows(a: Mat)
    requires a == Mat(3, 2, [1.0, 1.0, 4.0, 2.0, 2.0, 2.0])
    ensures RowOf(a, 0) == [1.0, 4.0, 2.0] && RowOf(a, 1) == [1.0, 2.0, 2.0]
  {
    assert a.At(0, 0) == 1.0 && a.At(1, 0) == 4.0 && a.At(2, 0) == 2.0;
    assert a.At(0, 1) == 1.0 && a.At(1, 1) == 2.0 && a.At(2, 1) == 2.0;
  }

  /** The columns of the product of a 3x2 and a 2x3 matrix, from their
      rows and columns. */
  lemma SquareProductColumns(a: Mat, b: Mat)
    requires a.Valid() && b.Valid() && a.columns == 3 && a.rows == 2 && b.columns == 2 && b.rows == 3
    requires RowOf(a, 0) == [1.0, 4.0, 2.0] && RowOf(a, 1) == [1.0, 2.0, 2.0]
    requires ColumnOf(b, 0) == [1.0, 2.0, 2.0] && ColumnOf(b, 1) == [3.0, 3.0, -2.0]
    ensures ProductFlat(a, b, 2) == [13.0, 9.0, 11.0, 5.0]
  {
    assert DotPrefix([1.0, 4.0, 2.0], [1.0, 2.0, 2.0], 3) == 13.0;
    assert DotPrefix([1.0, 2.0, 2.0], [1.0, 2.0, 2.0], 3) == 9.0;
    assert DotPrefix([1.0, 4.0, 2.0], [3.0, 3.0, -2.0], 3) == 11.0;
    assert DotPrefix([1.0, 2.0, 2.0], [3.0, 3.0, -2.0], 3) == 5.0;
    assert ProductColumn(a, b, 0) == [13.0, 9.0];
    assert ProductColumn(a, b, 1) == [11.0, 5.0];
  }

  /** Product of a 3x2 and a padded 2x3 matrix: the padding is skipped. */
  lemma SquareProductExample()
    ensures Product(Layout(3, 2, Some([1.0, 1.0, 4.0, 2.0, 2.0, 2.0])),
                    Layout(2, 3, Some([1.0, 2.0, 2.0, 3.0, 3.0, -2.0]))).data
         == [13.0, 9.0, 11.0, 5.0]
  {
    var d := [1.0, 2.0, 2.0, 3.0, 3.0, -2.0];
    assert d[3..] == [3.0, 3.0, -2.0];
    var b := Layout(2, 3, Some(d));
    assert b == Mat(2, 3, [1.0, 2.0, 2.0, 0.0, 3.0, 3.0, -2.0, 0.0]);
    var a := Layout(3, 2, Some([1.0, 1.0, 4.0, 2.0, 2.0, 2.0]));
    WideRows(a);
    assert ColumnOf(b, 0) == [1.0, 2.0, 2.0] && ColumnOf(b, 1) == [3.0, 3.0, -2.0];
    SquareProductColumns(a, b);
  }

  /** Three `translate` calls on the identity leave the translation by the
      sum of their vectors. */
  lemma TranslateChain(n: int, u: seq<real>, v: seq<real>, w: seq<real>)
    requires n == 3 || n == 4
    requires |u| == n - 1 && |v| == n - 1 && |w| == n - 1
    ensures var i1 := Product(TranslationMat(n, u), IdentityMat(n));
            var i2 := Product(TranslationMat(n, v), i1);
            Product(TranslationMat(n, w), i2) == TranslationMat(n, Sum(Sum(u, v), w))
  {
    ProductIdentityRight(TranslationMat(n, u));
    TranslationCompose(n, u, v);
    TranslationCompose(n, Sum(u, v), w);
  }

  /** The translations the test suite's examples build; the first is where
      the chain below ends. */
  lemma TranslationExamples()
    ensures TranslationMat(3, [4.0, 7.0]).data
         == [1.0, 0.0, 0.0, 0.0, 0.0, 1.0, 0.0, 0.0, 4.0, 7.0, 1.0, 0.0]
    ensures TranslationMat(3, [5.0, 6.0]).data
         == [1.0, 0.0, 0.0, 0.0, 0.0, 1.0, 0.0, 0.0, 5.0, 6.0, 1.0, 0.0]
    ensures TranslationMat(4, [3.0, 7.0, 9.0]).data
         == [1.0, 0.0, 0.0, 0.0, 0.0, 1.0, 0.0, 0.0, 0.0, 0.0, 1.0, 0.0, 3.0, 7.0, 9.0, 1.0]
  {
  }

  /** Translating the 3x3 identity by [5, 3], then [0, 8], then [-1, -4]
      leaves [4, 7] in the last column. */
  lemma TranslateChainExample(u: seq<real>, v: seq<real>, w: seq<real>)
    requires u == [5.0, 3.0] && v == [0.0, 8.0] && w == [-1.0, -4.0]
    ensures Product(TranslationMat(3, w), Product(TranslationMat(3, v), Product(TranslationMat(3, u), IdentityMat(3)))).data
         == [1.0, 0.0, 0.0, 0.0, 0.0, 1.0, 0.0, 0.0, 4.0, 7.0, 1.0, 0.0]
  {
    TranslateChain(3, u, v, w);
    assert Sum(Sum(u, v), w) == [4.0, 7.0];
    TranslationExamples();
  }

  /** `translate` on a 3x3 identity matrix yields the translation itself. */
  lemma TranslateIdentityExample(v: seq<real>)
    requires v == [-6.0, 8.0]
    ensures Product(TranslationMat(3, v), IdentityMat(3)).data
         == [1.0, 0.0, 0.0, 0.0, 0.0, 1.0, 0.0, 0.0, -6.0, 8.0, 1.0, 0.0]
  {
    ProductIdentityRight(TranslationMat(3, v));
  }

  /** `translate` on a 4x4 identity matrix yields the translation itself. */
  lemma TranslateIdentity4Example(v: seq<real>)
    requires v == [9.0, 4.0, 7.0]
    ensures Product(TranslationMat(4, v), IdentityMat(4)).data
         == [1.0, 0.0, 0.0, 0.0, 0.0, 1.0, 0.0, 0.0, 0.0, 0.0, 1.0, 0.0, 9.0, 4.0, 7.0, 1.0]
  {
    ProductIdentityRight(TranslationMat(4, v));
  }

  class Matrix {
    var columns: int
    var rows: int
    var isSquare: bool
    var data: array<real>

    ghost predicate Valid()
      reads this
    {
      && ValidShape(columns, rows)
      && isSquare == (columns == rows)
      && data.Length == columns * Stride(rows)
    }

    /** The matrix value this object currently holds. */
    function Value(): (m: Mat)
      requires Valid()
      reads this, data
      ensures m.Valid() && m.columns == columns && m.rows == rows && m.data == data[..]
    {
      Mat(columns, rows, data[..])
    }

    /** The storage for validated arguments: the part of the JavaScript
        constructor after its two checks. */
    constructor Init(c: int, r: int, init: Option<seq<real>>)
      requires ValidShape(c, r)
      requires init.Some? ==> |init.value| == c * r
      ensures Valid() && fresh(data)
      ensures Value() == Layout(c, r, init)
    {
      columns, rows := c, r;
      isSquare := c == r;
      var storage := Layout(c, r, init).data;
      var a := new real[|storage|](k requires 0 <= k < |storage| => storage[k]);
      assert a[..] == storage;
      data := a;
    }

    /** `new Matrix(c, r, data)`: rejects a shape outside [2, 4] x [2, 4] or a
        non-integer one, then initial data that does not hold c * r values. */
    static method New(c: real, r: real, init: Option<seq<real>>) returns (res: Result<Matrix, MatrixError>)
      ensures res == Failure(InvalidShape) <==>
                !(IsInteger(c) && IsInteger(r) && 2.0 <= c <= 4.0 && 2.0 <= r <= 4.0)
      ensures res == Failure(DataSizeMismatch) <==>
                && IsInteger(c) && IsInteger(r) && 2.0 <= c <= 4.0 && 2.0 <= r <= 4.0
                && init.Some? && |init.value| as real != c * r
      ensures res.Failure? ==> res.error == InvalidShape || res.error == DataSizeMismatch
      ensures res.Success? ==> fresh(res.value) && fresh(res.value.data) && res.value.Valid()
      ensures res.Success? ==> res.value.columns as real == c && res.value.rows as real == r
      ensures res.Success? ==> res.value.Value() == Layout(res.value.columns, res.value.rows, init)
    {
      if !IsInteger(c) || !IsInteger(r) || c < 2.0 || c > 4.0 || r < 2.0 || r > 4.0 {
        return Failure(InvalidShape);
      }
      if init.Some? && |init.value| as real != c * r {
        return Failure(DataSizeMismatch);
      }
      var m := new Matrix.Init(c.Floor, r.Floor, init);
      return Success(m);
    }

    /** `identity()`: fails on a non-square matrix, otherwise replaces the
        storage by the identity of that size. */
    method Identity() returns (o: Outcome<MatrixError>)
      requires Valid()
      modifies this
      ensures Valid() && columns == old(columns) && rows == old(rows)
      ensures o.Pass? <==> isSquare
      ensures o.Fail? ==> o.error == NotSquare && data == old(data)
      ensures o.Pass? ==> fresh(data) && Value() == IdentityMat(columns)
    {
      if !isSquare {
        return Fail(NotSquare);
      }
      var id := IdentityMat(columns).data;
      var a := new real[|id|](k requires 0 <= k < |id| => id[k]);
      assert a[..] == id;
      data := a;
      return Pass;
    }

    /** `column(index)`: the index-th column as a vector of `rows` components. */
    method Column(index: real) returns (r: Result<Vector, MatrixError>)
      requires Valid()
      ensures r.Failure? <==> !(IsInteger(index) && 0.0 <= index < columns as real)
      ensures r.Failure? ==> r.error == IndexOutOfRange
      ensures r.Success? ==> fresh(r.value) && fresh(r.value.data) && r.value.Valid()
      ensures r.Success? ==> r.value.size == rows && r.value.data[..] == LaneLayout(rows, Some(ColumnOf(Value(), index.Floor)))
    {
      if !IsInteger(index) || index < 0.0 || index >= columns as real {
        return Failure(IndexOutOfRange);
      }
      var i := index.Floor;
      assert 0 <= i < columns;
      var stride := if rows == 3 then 4 else rows;
      SlotInRange(columns, rows, i, rows - 1);
      var col := data[i * stride .. i * stride + rows];
      assert col == ColumnOf(Value(), i);
      var v := new Vector.Init(rows, Some(col));
      return Success(v);
    }

    /** `row(index)`: entry `index` of every column, pushed in column order. */
    method Row(index: real) returns (r: Result<Vector, MatrixError>)
      requires Valid()
      ensures r.Failure? <==> !(IsInteger(index) && 0.0 <= index < rows as real)
      ensures r.Failure? ==> r.error == IndexOutOfRange
      ensures r.Success? ==> fresh(r.value) && fresh(r.value.data) && r.value.Valid()
      ensures r.Success? ==> r.value.size == columns && r.value.data[..] == LaneLayout(columns, Some(RowOf(Value(), index.Floor)))
    {
      if !IsInteger(index) || index < 0.0 || index >= rows as real {
        return Failure(IndexOutOfRange);
      }
      var j := index.Floor;
      assert 0 <= j < rows;
      var row: seq<real> := [];
      var stride := if rows == 3 then 4 else rows;
      ghost var full := RowOf(Value(), j);
      for i := 0 to columns
        invariant row == full[..i]
      {
        SlotInRange(columns, rows, i, j);
        assert data[j + stride * i] == full[i];
        assert full[..i + 1] == full[..i] + [full[i]];
        row := row + [data[j + stride * i]];
      }
      assert full[..columns] == full;
      var v := new Vector.Init(columns, Some(row));
      return Success(v);
    }

    /** The loop body of `multiply`: dot(a.row(j), b.column(i)). */
    static method Entry(a: Matrix, b: Matrix, i: int, j: int) returns (dot: real)
      requires a.Valid() && b.Valid() && a.columns == b.rows
      requires 0 <= i < b.columns && 0 <= j < a.rows
      ensures dot == ProductColumn(a.Value(), b.Value(), i)[j]
    {
      assert IsInteger(j as real) && (j as real).Floor == j;
      assert IsInteger(i as real) && (i as real).Floor == i;
      var row := a.Row(j as real);
      var column := b.Column(i as real);
      var d := Vector.Dot(row.value, column.value);
      DotPrefixOnlyReadsPrefix(row.value.data[..], column.value.data[..], RowOf(a.Value(), j), ColumnOf(b.Value(), i), a.columns);
      return d.value;
    }

    /** The inner loop of `multiply`: pushes column i of a * b, row by row. */
    static method PushColumn(a: Matrix, b: Matrix, i: int, c: seq<real>) returns (c': seq<real>)
      requires a.Valid() && b.Valid() && a.columns == b.rows
      requires 0 <= i < b.columns
      ensures c' == c + ProductColumn(a.Value(), b.Value(), i)
    {
      ghost var column := ProductColumn(a.Value(), b.Value(), i);
      c' := c;
      for j := 0 to a.rows
        invariant c' == c + column[..j]
      {
        var dot := Entry(a, b, i, j);
        assert column[..j + 1] == column[..j] + [column[j]];
        c' := c' + [dot];
      }
      assert column[..a.rows] == column;
    }

    /** `Matrix.multiply(a, b)`: fails unless a.columns == b.rows, otherwise
        pushes dot(a.row(j), b.column(i)) column by column and builds a
        (b.columns x a.rows) matrix from the list. */
    static method Multiply(a: Matrix, b: Matrix) returns (r: Result<Matrix, MatrixError>)
      requires a.Valid() && b.Valid()
      ensures r.Failure? <==> a.columns != b.rows
      ensures r.Failure? ==> r.error == DimensionMismatch
      ensures r.Success? ==> fresh(r.value) && fresh(r.value.data) && r.value.Valid()
      ensures r.Success? ==> r.value.Value() == Product(a.Value(), b.Value())
    {
      if a.columns != b.rows {
        return Failure(DimensionMismatch);
      }
      var c: seq<real> := [];
      for i := 0 to b.columns
        invariant c == ProductFlat(a.Value(), b.Value(), i)
      {
        c := PushColumn(a, b, i, c);
      }
      var m := new Matrix.Init(b.columns, a.rows, Some(c));
      return Success(m);
    }

    /** `Matrix.translation(n, v)`: builds an n x n matrix (failing as the
        constructor does), fails for n == 2 or a vector not of n - 1 values,
        then writes v over the identity from the storage offset 8 or 12. */
    static method Translation(n: real, v: seq<real>) returns (r: Result<Matrix, MatrixError>)
      ensures r == Failure(InvalidShape) <==> !(IsInteger(n) && 2.0 <= n <= 4.0)
      ensures r == Failure(TranslationTooSmall) <==> n == 2.0
      ensures r == Failure(TranslationVectorSize) <==>
                IsInteger(n) && 3.0 <= n <= 4.0 && |v| as real != n - 1.0
      ensures r.Failure? ==> r.error in {InvalidShape, TranslationTooSmall, TranslationVectorSize}
      ensures r.Success? ==> fresh(r.value) && fresh(r.value.data) && r.value.Valid()
      ensures r.Success? ==> r.value.columns as real == n && |v| == r.value.columns - 1
      ensures r.Success? ==> r.value.Value() == TranslationMat(r.value.columns, v)
    {
      var created := New(n, n, None);
      if created.Failure? {
        return Failure(created.error);
      }
      var matrix := created.value;
      if matrix.columns == 2 {
        return Failure(TranslationTooSmall);
      }
      if |v| != matrix.columns - 1 {
        return Failure(TranslationVectorSize);
      }
      var _ := matrix.Identity();
      ghost var id := matrix.data[..];
      var offset := if matrix.columns == 3 then 8 else 12;
      for i := 0 to |v|
        invariant matrix.Valid() && matrix.columns as real == n && matrix.rows == matrix.columns
        invariant fresh(matrix.data)
        invariant |matrix.data[..]| == |id|
        invariant forall k :: 0 <= k < |id| ==>
                    matrix.data[k] == if offset <= k < offset + i then v[k - offset] else id[k]
      {
        matrix.data[offset + i] := v[i];
      }
      TranslationStorage(matrix.columns, v, matrix.data[..]);
      return Success(matrix);
    }

    /** `translate(v)`: fails on a non-square matrix (and, through
        `translation`, on a 2x2 one or a vector of the wrong size); otherwise
        the storage becomes that of translation(columns, v) x this. */
    method Translate(v: seq<real>) returns (o: Outcome<MatrixError>)
      requires Valid()
      modifies this
      ensures Valid() && columns == old(columns) && rows == old(rows) && isSquare == old(isSquare)
      ensures o == Fail(NotSquare) <==> !isSquare
      ensures o == Fail(TranslationTooSmall) <==> isSquare && columns == 2
      ensures o == Fail(TranslationVectorSize) <==> isSquare && columns != 2 && |v| != columns - 1
      ensures o.Fail? ==> o.error in {NotSquare, TranslationTooSmall, TranslationVectorSize}
      ensures o.Fail? ==> data == old(data)
      ensures o.Pass? ==> fresh(data)
      ensures o.Pass? ==> Value() == Product(TranslationMat(columns, v), old(Value()))
    {
      if !isSquare {
        return Fail(NotSquare);
      }
      var t := Translation(columns as real, v);
      if t.Failure? {
        return Fail(t.error);
      }
      var p := Multiply(t.value, this);
      data := p.value.data;
      return Pass;
    }
  }
}
