/**
 * Value-level model of the matrix4 kernel: a 4x4 matrix is a sequence of
 * 16 reals stored column-major, row `i` and column `j` at slot `i + 4*j`.
 * The buffer operations in module Matrix4 are specified by the functions
 * here, and the properties of the kernel are proved here as lemmas.
 */
module ColumnMajor {

  datatype Option<T> = None | Some(value: T)

  /** Number of slots of a 4x4 matrix buffer. */
  const Size: nat := 16

  predicate IsMatrix(m: seq<real>) {
    |m| == Size
  }

  /** The one index formula of the kernel: row `i`, column `j`. */
  function Index(i: int, j: int): (k: int)
    ensures 0 <= i < 4 && 0 <= j < 4 ==> 0 <= k < Size
  {
    i + 4 * j
  }

  /** Row and column of a slot: the inverse of Index on 0..15. */
  function RowOf(k: int): int { k % 4 }
  function ColOf(k: int): int { k / 4 }

  lemma IndexInRange(i: int, j: int)
    requires 0 <= i < 4 && 0 <= j < 4
    ensures 0 <= Index(i, j) < Size
    ensures RowOf(Index(i, j)) == i && ColOf(Index(i, j)) == j
  {
  }

  lemma IndexOnto(k: int)
    requires 0 <= k < Size
    ensures 0 <= RowOf(k) < 4 && 0 <= ColOf(k) < 4
    ensures Index(RowOf(k), ColOf(k)) == k
  {
  }

  lemma IndexInjective(i: int, j: int, i': int, j': int)
    requires 0 <= i < 4 && 0 <= j < 4 && 0 <= i' < 4 && 0 <= j' < 4
    ensures Index(i, j) == Index(i', j') <==> i == i' && j == j'
  {
  }

  // ---------------------------------------------------------------------
  // Typed-array writes: a write outside the buffer is dropped.

  function Updated(s: seq<real>, k: int, v: real): (r: seq<real>)
    ensures |r| == |s|
    ensures 0 <= k < |s| ==> r[k] == v
    ensures forall n :: 0 <= n < |s| && n != k ==> r[n] == s[n]
  {
    if 0 <= k < |s| then s[k := v] else s
  }

  // ---------------------------------------------------------------------
  // Constant matrices.

  function IdentityMatrix(): (m: seq<real>)
    ensures IsMatrix(m)
    ensures forall i, j :: 0 <= i < 4 && 0 <= j < 4 ==>
      m[Index(i, j)] == if i == j then 1.0 else 0.0
  {
    [1.0, 0.0, 0.0, 0.0,
     0.0, 1.0, 0.0, 0.0,
     0.0, 0.0, 1.0, 0.0,
     0.0, 0.0, 0.0, 1.0]
  }

  function ZeroMatrix(): (m: seq<real>)
    ensures IsMatrix(m)
    ensures forall k :: 0 <= k < Size ==> m[k] == 0.0
  {
    seq(Size, _ => 0.0)
  }

  // ---------------------------------------------------------------------
  // Rows, columns and the upper-left 3x3 block.

  /** The four entries of row `i`, left to right. */
  function Row(m: seq<real>, i: int): (r: seq<real>)
    requires IsMatrix(m) && 0 <= i < 4
    ensures |r| == 4
    ensures forall c :: 0 <= c < 4 ==> r[c] == m[Index(i, c)]
  {
    [m[Index(i, 0)], m[Index(i, 1)], m[Index(i, 2)], m[Index(i, 3)]]
  }

  /** The four entries of column `j`, top to bottom. */
  function Col(m: seq<real>, j: int): (r: seq<real>)
    requires IsMatrix(m) && 0 <= j < 4
    ensures |r| == 4
    ensures forall c :: 0 <= c < 4 ==> r[c] == m[Index(c, j)]
  {
    [m[Index(0, j)], m[Index(1, j)], m[Index(2, j)], m[Index(3, j)]]
  }

  /** `m` after writing `v[0..4]` at the slots `i + 4*c` in turn (dropped where out of range). */
  function WithRow(m: seq<real>, i: int, v: seq<real>): (r: seq<real>)
    requires |v| >= 4
    ensures |r| == |m|
  {
    Updated(Updated(Updated(Updated(m, Index(i, 0), v[0]), Index(i, 1), v[1]), Index(i, 2), v[2]), Index(i, 3), v[3])
  }

  /** `m` after writing `v[0..4]` at the slots `c + 4*j` in turn (dropped where out of range). */
  function WithCol(m: seq<real>, j: int, v: seq<real>): (r: seq<real>)
    requires |v| >= 4
    ensures |r| == |m|
  {
    Updated(Updated(Updated(Updated(m, Index(0, j), v[0]), Index(1, j), v[1]), Index(2, j), v[2]), Index(3, j), v[3])
  }

  /** The upper-left 3x3 block packed column by column into nine slots. */
  function Upper3(m: seq<real>): (u: seq<real>)
    requires IsMatrix(m)
    ensures |u| == 9
    ensures forall r, c :: 0 <= r < 3 && 0 <= c < 3 ==> u[3 * c + r] == m[Index(r, c)]
  {
    [m[0], m[1], m[2], m[4], m[5], m[6], m[8], m[9], m[10]]
  }

  lemma {:induction false} WithRowWrites(m: seq<real>, i: int, v: seq<real>, c: int)
    requires |v| >= 4 && 0 <= c < 4 && 0 <= Index(i, c) < |m|
    ensures WithRow(m, i, v)[Index(i, c)] == v[c]
  {
  }

  lemma {:induction false} WithRowFrame(m: seq<real>, i: int, v: seq<real>, k: int)
    requires |v| >= 4 && 0 <= k < |m|
    requires forall c :: 0 <= c < 4 ==> k != Index(i, c)
    ensures WithRow(m, i, v)[k] == m[k]
  {
    assert k != Index(i, 0) && k != Index(i, 1) && k != Index(i, 2) && k != Index(i, 3);
  }

  lemma {:induction false} WithColWrites(m: seq<real>, j: int, v: seq<real>, c: int)
    requires |v| >= 4 && 0 <= c < 4 && 0 <= Index(c, j) < |m|
    ensures WithCol(m, j, v)[Index(c, j)] == v[c]
  {
  }

  lemma {:induction false} WithColFrame(m: seq<real>, j: int, v: seq<real>, k: int)
    requires |v| >= 4 && 0 <= k < |m|
    requires forall c :: 0 <= c < 4 ==> k != Index(c, j)
    ensures WithCol(m, j, v)[k] == m[k]
  {
    assert k != Index(0, j) && k != Index(1, j) && k != Index(2, j) && k != Index(3, j);
  }

  /** Reading back a row just written gives the written values. */
  lemma RowOfWithRow(m: seq<real>, i: int, v: seq<real>)
    requires IsMatrix(m) && 0 <= i < 4 && |v| == 4
    ensures Row(WithRow(m, i, v), i) == v
  {
  }

  /** Writing back a row just read changes nothing. */
  lemma WithRowOfRow(m: seq<real>, i: int)
    requires IsMatrix(m) && 0 <= i < 4
    ensures WithRow(m, i, Row(m, i)) == m
  {
  }

  /** Writing row `i` leaves every other row as it was. */
  lemma WithRowKeepsOtherRows(m: seq<real>, i: int, v: seq<real>, i': int)
    requires IsMatrix(m) && 0 <= i < 4 && 0 <= i' < 4 && i != i' && |v| >= 4
    ensures Row(WithRow(m, i, v), i') == Row(m, i')
  {
  }

  lemma ColOfWithCol(m: seq<real>, j: int, v: seq<real>)
    requires IsMatrix(m) && 0 <= j < 4 && |v| == 4
    ensures Col(WithCol(m, j, v), j) == v
  {
  }

  lemma WithColOfCol(m: seq<real>, j: int)
    requires IsMatrix(m) && 0 <= j < 4
    ensures WithCol(m, j, Col(m, j)) == m
  {
  }

  lemma WithColKeepsOtherCols(m: seq<real>, j: int, v: seq<real>, j': int)
    requires IsMatrix(m) && 0 <= j < 4 && 0 <= j' < 4 && j != j' && |v| >= 4
    ensures Col(WithCol(m, j, v), j') == Col(m, j')
  {
  }

  /** Row and column views agree: entry `j` of row `i` is entry `i` of column `j`. */
  lemma RowColAgree(m: seq<real>, i: int, j: int)
    requires IsMatrix(m) && 0 <= i < 4 && 0 <= j < 4
    ensures Row(m, i)[j] == Col(m, j)[i] == m[Index(i, j)]
  {
  }

  // ---------------------------------------------------------------------
  // Element-wise arithmetic.

  function Plus(a: seq<real>, b: seq<real>): (r: seq<real>)
    requires IsMatrix(a) && IsMatrix(b)
    ensures IsMatrix(r)
    ensures forall k :: 0 <= k < Size ==> r[k] == a[k] + b[k]
  {
    seq(Size, k requires 0 <= k < Size => a[k] + b[k])
  }

  function Minus(a: seq<real>, b: seq<real>): (r: seq<real>)
    requires IsMatrix(a) && IsMatrix(b)
    ensures IsMatrix(r)
    ensures forall k :: 0 <= k < Size ==> r[k] == a[k] - b[k]
  {
    seq(Size, k requires 0 <= k < Size => a[k] - b[k])
  }

  lemma MinusUndoesPlus(a: seq<real>, b: seq<real>)
    requires IsMatrix(a) && IsMatrix(b)
    ensures Minus(Plus(a, b), b) == a
  {
  }

  lemma PlusUndoesMinus(a: seq<real>, b: seq<real>)
    requires IsMatrix(a) && IsMatrix(b)
    ensures Plus(Minus(a, b), b) == a
  {
  }

  lemma PlusCommutes(a: seq<real>, b: seq<real>)
    requires IsMatrix(a) && IsMatrix(b)
    ensures Plus(a, b) == Plus(b, a)
  {
  }

  lemma PlusZero(a: seq<real>)
    requires IsMatrix(a)
    ensures Plus(a, ZeroMatrix()) == a && Minus(a, ZeroMatrix()) == a
  {
  }

  lemma MinusSelfIsZero(a: seq<real>)
    requires IsMatrix(a)
    ensures Minus(a, a) == ZeroMatrix()
  {
  }

  // ---------------------------------------------------------------------
  // Matrix product.

  /** Sum over k < n of a[i, k] * b[k, j]. */
  function Dot(a: seq<real>, b: seq<real>, i: int, j: int, n: nat): real
    requires IsMatrix(a) && IsMatrix(b) && 0 <= i < 4 && 0 <= j < 4 && n <= 4
  {
    if n == 0 then 0.0 else Dot(a, b, i, j, n - 1) + a[Index(i, n - 1)] * b[Index(n - 1, j)]
  }

  function Product(a: seq<real>, b: seq<real>): (r: seq<real>)
    requires IsMatrix(a) && IsMatrix(b)
    ensures IsMatrix(r)
  {
    seq(Size, k requires 0 <= k < Size => Dot(a, b, RowOf(k), ColOf(k), 4))
  }

  /** Entry (i, j) of a product written out as the four-term sum the kernel computes. */
  function Entry(a: seq<real>, b: seq<real>, i: int, j: int): real
    requires IsMatrix(a) && IsMatrix(b) && 0 <= i < 4 && 0 <= j < 4
  {
    a[Index(i, 0)] * b[Index(0, j)] + a[Index(i, 1)] * b[Index(1, j)] +
    a[Index(i, 2)] * b[Index(2, j)] + a[Index(i, 3)] * b[Index(3, j)]
  }

  /** The sum over k < 4 is the written-out sum. */
  lemma DotExpand(a: seq<real>, b: seq<real>, i: int, j: int)
    requires IsMatrix(a) && IsMatrix(b) && 0 <= i < 4 && 0 <= j < 4
    ensures Dot(a, b, i, j, 4) == Entry(a, b, i, j)
  {
    assert Dot(a, b, i, j, 1) == a[Index(i, 0)] * b[Index(0, j)];
    assert Dot(a, b, i, j, 2) == Dot(a, b, i, j, 1) + a[Index(i, 1)] * b[Index(1, j)];
    assert Dot(a, b, i, j, 3) == Dot(a, b, i, j, 2) + a[Index(i, 2)] * b[Index(2, j)];
  }

  lemma {:induction false} ProductEntry(a: seq<real>, b: seq<real>, i: int, j: int)
    requires IsMatrix(a) && IsMatrix(b) && 0 <= i < 4 && 0 <= j < 4
    ensures Product(a, b)[Index(i, j)] == Entry(a, b, i, j)
  {
    IndexInRange(i, j);
    DotExpand(a, b, i, j);
  }

  /** Two 16-slot sequences that agree slot by slot are equal. */
  lemma {:induction false} SlotwiseEqual(p: seq<real>, r: seq<real>)
    requires IsMatrix(p) && IsMatrix(r)
    requires p[0] == r[0] && p[1] == r[1] && p[2] == r[2] && p[3] == r[3]
    requires p[4] == r[4] && p[5] == r[5] && p[6] == r[6] && p[7] == r[7]
    requires p[8] == r[8] && p[9] == r[9] && p[10] == r[10] && p[11] == r[11]
    requires p[12] == r[12] && p[13] == r[13] && p[14] == r[14] && p[15] == r[15]
    ensures p == r
  {
    forall k | 0 <= k < Size
      ensures p[k] == r[k]
    {
    }
  }

  /** Every slot of `r` holds the sum for its row and column. */
  predicate ProductSlots(a: seq<real>, b: seq<real>, r: seq<real>)
    requires IsMatrix(a) && IsMatrix(b) && IsMatrix(r)
  {
    && r[0] == Dot(a, b, 0, 0, 4) && r[1] == Dot(a, b, 1, 0, 4) && r[2] == Dot(a, b, 2, 0, 4) && r[3] == Dot(a, b, 3, 0, 4)
    && r[4] == Dot(a, b, 0, 1, 4) && r[5] == Dot(a, b, 1, 1, 4) && r[6] == Dot(a, b, 2, 1, 4) && r[7] == Dot(a, b, 3, 1, 4)
    && r[8] == Dot(a, b, 0, 2, 4) && r[9] == Dot(a, b, 1, 2, 4) && r[10] == Dot(a, b, 2, 2, 4) && r[11] == Dot(a, b, 3, 2, 4)
    && r[12] == Dot(a, b, 0, 3, 4) && r[13] == Dot(a, b, 1, 3, 4) && r[14] == Dot(a, b, 2, 3, 4) && r[15] == Dot(a, b, 3, 3, 4)
  }

  lemma {:induction false} ProductFromSlots(a: seq<real>, b: seq<real>, r: seq<real>)
    requires IsMatrix(a) && IsMatrix(b) && IsMatrix(r) && ProductSlots(a, b, r)
    ensures Product(a, b) == r
  {
    SlotwiseEqual(Product(a, b), r);
  }

  /** Column `j` of a product from the four written-out sums of that column. */
  lemma {:induction false} ProductColumn(a: seq<real>, b: seq<real>, j: int, r0: real, r1: real, r2: real, r3: real)
    requires IsMatrix(a) && IsMatrix(b) && 0 <= j < 4
    requires Entry(a, b, 0, j) == r0 && Entry(a, b, 1, j) == r1 && Entry(a, b, 2, j) == r2 && Entry(a, b, 3, j) == r3
    ensures Dot(a, b, 0, j, 4) == r0 && Dot(a, b, 1, j, 4) == r1 && Dot(a, b, 2, j, 4) == r2 && Dot(a, b, 3, j, 4) == r3
  {
    DotExpand(a, b, 0, j);
    DotExpand(a, b, 1, j);
    DotExpand(a, b, 2, j);
    DotExpand(a, b, 3, j);
  }

  lemma {:induction false} ProductLeftUnit(m: seq<real>)
    requires IsMatrix(m)
    ensures Product(IdentityMatrix(), m) == m
  {
    var p := Product(IdentityMatrix(), m);
    forall k | 0 <= k < Size
      ensures p[k] == m[k]
    {
      IndexOnto(k);
      ProductEntry(IdentityMatrix(), m, RowOf(k), ColOf(k));
    }
  }

  lemma {:induction false} ProductRightUnit(m: seq<real>)
    requires IsMatrix(m)
    ensures Product(m, IdentityMatrix()) == m
  {
    var p := Product(m, IdentityMatrix());
    forall k | 0 <= k < Size
      ensures p[k] == m[k]
    {
      IndexOnto(k);
      ProductEntry(m, IdentityMatrix(), RowOf(k), ColOf(k));
    }
  }

  /** The product of two transforms that fix the origin fixes the origin. */
  lemma {:induction false} ProductKeepsLinear(a: seq<real>, b: seq<real>)
    requires IsMatrix(a) && IsMatrix(b) && IsLinearTransform(a) && IsLinearTransform(b)
    ensures IsLinearTransform(Product(a, b))
  {
    ProductEntry(a, b, 3, 0);
    ProductEntry(a, b, 3, 1);
    ProductEntry(a, b, 3, 2);
    ProductEntry(a, b, 3, 3);
    ProductEntry(a, b, 0, 3);
    ProductEntry(a, b, 1, 3);
    ProductEntry(a, b, 2, 3);
  }

  // ---------------------------------------------------------------------
  // Rotation layouts. The sine and cosine of each angle are parameters:
  // `s` and `c` for one angle, `sa, ca, sb, cb, sc, cc` for the angles
  // a, b, c of the Euler constructor.

  /** Bottom row [0, 0, 0, 1] and a zero translation column (slots 12..14). */
  predicate IsLinearTransform(m: seq<real>)
    requires IsMatrix(m)
  {
    && m[Index(3, 0)] == 0.0 && m[Index(3, 1)] == 0.0 && m[Index(3, 2)] == 0.0 && m[Index(3, 3)] == 1.0
    && m[Index(0, 3)] == 0.0 && m[Index(1, 3)] == 0.0 && m[Index(2, 3)] == 0.0
  }

  /** Dot product of the 3-vectors (a0, a1, a2) and (b0, b1, b2). */
  function Dot3(a0: real, a1: real, a2: real, b0: real, b1: real, b2: real): real {
    a0 * b0 + a1 * b1 + a2 * b2
  }

  /** Dot product of columns `p` and `q` of the upper-left 3x3 block. */
  function ColumnDot(m: seq<real>, p: int, q: int): real
    requires IsMatrix(m) && 0 <= p < 4 && 0 <= q < 4
  {
    Dot3(m[Index(0, p)], m[Index(1, p)], m[Index(2, p)], m[Index(0, q)], m[Index(1, q)], m[Index(2, q)])
  }

  /** The upper-left 3x3 block has orthonormal columns. */
  predicate Orthonormal3(m: seq<real>)
    requires IsMatrix(m)
  {
    && ColumnDot(m, 0, 0) == 1.0 && ColumnDot(m, 1, 1) == 1.0 && ColumnDot(m, 2, 2) == 1.0
    && ColumnDot(m, 0, 1) == 0.0 && ColumnDot(m, 0, 2) == 0.0 && ColumnDot(m, 1, 2) == 0.0
  }

  function RotationXMatrix(s: real, c: real): (m: seq<real>)
    ensures IsMatrix(m) && IsLinearTransform(m)
  {
    [1.0, 0.0, 0.0, 0.0,
     0.0,   c,   s, 0.0,
     0.0,  -s,   c, 0.0,
     0.0, 0.0, 0.0, 1.0]
  }

  function RotationYMatrix(s: real, c: real): (m: seq<real>)
    ensures IsMatrix(m) && IsLinearTransform(m)
  {
    [  c, 0.0,   s, 0.0,
     0.0, 1.0, 0.0, 0.0,
      -s, 0.0,   c, 0.0,
     0.0, 0.0, 0.0, 1.0]
  }

  function RotationZMatrix(s: real, c: real): (m: seq<real>)
    ensures IsMatrix(m) && IsLinearTransform(m)
  {
    [  c,  -s, 0.0, 0.0,
       s,   c, 0.0, 0.0,
     0.0, 0.0, 1.0, 0.0,
     0.0, 0.0, 0.0, 1.0]
  }

  /**
   * Axis-angle rotation about (x, y, z). `w` stands for the square root of
   * x*x + y*y + z*z; a zero `w` gives the identity, otherwise the axis is
   * scaled by 1/w and Rodrigues' formula is laid out.
   */
  function RotationMatrix(x: real, y: real, z: real, w: real, s: real, c: real): (m: seq<real>)
    ensures IsMatrix(m) && IsLinearTransform(m)
    ensures w == 0.0 ==> m == IdentityMatrix()
  {
    if w == 0.0 then IdentityMatrix()
    else
      var inv := 1.0 / w;
      RodriguesMatrix(x * inv, y * inv, z * inv, s, c)
  }

  /** Rodrigues' formula for the scaled axis (x, y, z), in the kernel's slot order. */
  function RodriguesMatrix(x: real, y: real, z: real, s: real, c: real): (m: seq<real>)
    ensures IsMatrix(m) && IsLinearTransform(m)
  {
    var k := 1.0 - c;
    [x * x * k + 1.0 * c, y * x * k + z * s, z * x * k - y * s, 0.0,
     x * y * k - z * s, y * y * k + 1.0 * c, y * z * k + x * s, 0.0,
     x * z * k + y * s, y * z * k - x * s, z * z * k + 1.0 * c, 0.0,
     0.0, 0.0, 0.0, 1.0]
  }

  /** Euler rotation z-y-x, closed form as corrected at slot 5. */
  function RotationZYXMatrix(sa: real, ca: real, sb: real, cb: real, sc: real, cc: real): (m: seq<real>)
    ensures IsMatrix(m) && IsLinearTransform(m)
  {
    [cc * cb, sc * cb, -sb, 0.0,
     cc * sb * sa - sc * ca, sc * sb * sa + cc * ca, cb * sa, 0.0,
     cc * sb * ca + sc * sa, sc * sb * ca - cc * sa, cb * ca, 0.0,
     0.0, 0.0, 0.0, 1.0]
  }

  /** Euler rotation z-y-x exactly as the kernel writes it: slot 5 uses cos(c) for sin(c). */
  function RotationZYXAsWritten(sa: real, ca: real, sb: real, cb: real, sc: real, cc: real): (m: seq<real>)
    ensures IsMatrix(m) && IsLinearTransform(m)
  {
    [cc * cb, sc * cb, -sb, 0.0,
     cc * sb * sa - sc * ca, cc * sb * sa + cc * ca, cb * sa, 0.0,
     cc * sb * ca + sc * sa, sc * sb * ca - cc * sa, cb * ca, 0.0,
     0.0, 0.0, 0.0, 1.0]
  }

  /** The single-axis constructors give the identity for a zero angle. */
  lemma AxisRotationsAtZero()
    ensures RotationXMatrix(0.0, 1.0) == IdentityMatrix()
    ensures RotationYMatrix(0.0, 1.0) == IdentityMatrix()
    ensures RotationZMatrix(0.0, 1.0) == IdentityMatrix()
  {
  }

  lemma RotationXOrthonormal(s: real, c: real)
    requires s * s + c * c == 1.0
    ensures Orthonormal3(RotationXMatrix(s, c))
  {
  }

  lemma RotationYOrthonormal(s: real, c: real)
    requires s * s + c * c == 1.0
    ensures Orthonormal3(RotationYMatrix(s, c))
  {
    var m := RotationYMatrix(s, c);
    assert ColumnDot(m, 0, 0) == c * c + s * s;
    assert ColumnDot(m, 2, 2) == s * s + c * c;
    assert ColumnDot(m, 0, 2) == 0.0 && ColumnDot(m, 2, 0) == 0.0;
  }

  lemma RotationZOrthonormal(s: real, c: real)
    requires s * s + c * c == 1.0
    ensures Orthonormal3(RotationZMatrix(s, c))
  {
  }

  /** A zero angle gives the identity whatever the axis. */
  lemma RotationAtZeroAngle(x: real, y: real, z: real, w: real)
    ensures RotationMatrix(x, y, z, w, 0.0, 1.0) == IdentityMatrix()
  {
    if w != 0.0 {
      var inv := 1.0 / w;
      var nx, ny, nz := x * inv, y * inv, z * inv;
      assert nx * nx * 0.0 == 0.0 && ny * ny * 0.0 == 0.0 && nz * nz * 0.0 == 0.0;
      assert ny * nx * 0.0 == 0.0 && nz * nx * 0.0 == 0.0 && ny * nz * 0.0 == 0.0;
      assert nx * ny * 0.0 == 0.0 && nx * nz * 0.0 == 0.0;
      assert nx * 0.0 == 0.0 && ny * 0.0 == 0.0 && nz * 0.0 == 0.0;
    }
  }

  // Orthonormality and the fixed axis of Rodrigues' block for a unit axis.
  // With k = 1 - c and x*x + y*y + z*z = 1, each column product expands to
  // a multiple of k*k + 2*k*c - s*s, which is 1 - (s*s + c*c) = 0, plus the
  // diagonal terms c*c + s*s; each row applied to the axis gives its
  // component times k + c = 1. The column and row lemmas state these facts
  // on the entries as RodriguesMatrix writes them, as arguments of Dot3.

  /** Scaling the axis by 1/w, with w its length, gives a unit axis. */
  lemma {:induction false} ScaledAxisIsUnit(x: real, y: real, z: real, w: real)
    requires w > 0.0 && w * w == x * x + y * y + z * z
    ensures var inv := 1.0 / w; (x * inv) * (x * inv) + (y * inv) * (y * inv) + (z * inv) * (z * inv) == 1.0
  {
    var inv := 1.0 / w;
    assert w * inv == 1.0;
    calc {
      (x * inv) * (x * inv) + (y * inv) * (y * inv) + (z * inv) * (z * inv);
      (x * x + y * y + z * z) * (inv * inv);
      (w * w) * (inv * inv);
      (w * inv) * (w * inv);
      1.0;
    }
  }

  /** Column 0 of Rodrigues' block has length 1 for a unit axis. */
  lemma {:induction false} RodriguesColumn0Norm(x: real, y: real, z: real, s: real, c: real)
    requires x * x + y * y + z * z == 1.0 && s * s + c * c == 1.0
    ensures var k := 1.0 - c;
      Dot3(x * x * k + 1.0 * c, y * x * k + z * s, z * x * k - y * s,
           x * x * k + 1.0 * c, y * x * k + z * s, z * x * k - y * s) == 1.0
  {
  }

  /** Column 1 of Rodrigues' block has length 1 for a unit axis. */
  lemma {:induction false} RodriguesColumn1Norm(x: real, y: real, z: real, s: real, c: real)
    requires x * x + y * y + z * z == 1.0 && s * s + c * c == 1.0
    ensures var k := 1.0 - c;
      Dot3(x * y * k - z * s, y * y * k + 1.0 * c, y * z * k + x * s,
           x * y * k - z * s, y * y * k + 1.0 * c, y * z * k + x * s) == 1.0
  {
  }

  /** Column 2 of Rodrigues' block has length 1 for a unit axis. */
  lemma {:induction false} RodriguesColumn2Norm(x: real, y: real, z: real, s: real, c: real)
    requires x * x + y * y + z * z == 1.0 && s * s + c * c == 1.0
    ensures var k := 1.0 - c;
      Dot3(x * z * k + y * s, y * z * k - x * s, z * z * k + 1.0 * c,
           x * z * k + y * s, y * z * k - x * s, z * z * k + 1.0 * c) == 1.0
  {
  }

  /** Columns 0 and 1 of Rodrigues' block are orthogonal for a unit axis. */
  lemma {:induction false} RodriguesColumns01Orthogonal(x: real, y: real, z: real, s: real, c: real)
    requires x * x + y * y + z * z == 1.0 && s * s + c * c == 1.0
    ensures var k := 1.0 - c;
      Dot3(x * x * k + 1.0 * c, y * x * k + z * s, z * x * k - y * s,
           x * y * k - z * s, y * y * k + 1.0 * c, y * z * k + x * s) == 0.0
  {
  }

  /** Columns 0 and 2 of Rodrigues' block are orthogonal for a unit axis. */
  lemma {:induction false} RodriguesColumns02Orthogonal(x: real, y: real, z: real, s: real, c: real)
    requires x * x + y * y + z * z == 1.0 && s * s + c * c == 1.0
    ensures var k := 1.0 - c;
      Dot3(x * x * k + 1.0 * c, y * x * k + z * s, z * x * k - y * s,
           x * z * k + y * s, y * z * k - x * s, z * z * k + 1.0 * c) == 0.0
  {
  }

  /** Columns 1 and 2 of Rodrigues' block are orthogonal for a unit axis. */
  lemma {:induction false} RodriguesColumns12Orthogonal(x: real, y: real, z: real, s: real, c: real)
    requires x * x + y * y + z * z == 1.0 && s * s + c * c == 1.0
    ensures var k := 1.0 - c;
      Dot3(x * y * k - z * s, y * y * k + 1.0 * c, y * z * k + x * s,
           x * z * k + y * s, y * z * k - x * s, z * z * k + 1.0 * c) == 0.0
  {
  }

  /** For a unit axis and a sine and cosine of one angle, Rodrigues' block has orthonormal columns. */
  lemma {:induction false} RodriguesOrthonormal(x: real, y: real, z: real, s: real, c: real)
    requires x * x + y * y + z * z == 1.0 && s * s + c * c == 1.0
    ensures Orthonormal3(RodriguesMatrix(x, y, z, s, c))
  {
    RodriguesColumn0Norm(x, y, z, s, c);
    RodriguesColumn1Norm(x, y, z, s, c);
    RodriguesColumn2Norm(x, y, z, s, c);
    RodriguesColumns01Orthogonal(x, y, z, s, c);
    RodriguesColumns02Orthogonal(x, y, z, s, c);
    RodriguesColumns12Orthogonal(x, y, z, s, c);
  }

  /**
   * For a nonzero axis whose length is `w`, and a sine and cosine of one
   * angle, the axis-angle constructor builds a rotation: its 3x3 block has
   * orthonormal columns. A zero axis gives the identity, which has them too.
   */
  lemma {:induction false} RotationOrthonormal(x: real, y: real, z: real, w: real, s: real, c: real)
    requires w >= 0.0 && w * w == x * x + y * y + z * z && s * s + c * c == 1.0
    ensures Orthonormal3(RotationMatrix(x, y, z, w, s, c))
  {
    if w != 0.0 {
      ScaledAxisIsUnit(x, y, z, w);
      RodriguesOrthonormal(x * (1.0 / w), y * (1.0 / w), z * (1.0 / w), s, c);
    }
  }

  /** Row 0 of Rodrigues' block, applied to its unit axis, gives back x. */
  lemma {:induction false} RodriguesRow0Fixes(x: real, y: real, z: real, s: real, c: real)
    requires x * x + y * y + z * z == 1.0
    ensures var k := 1.0 - c;
      Dot3(x * x * k + 1.0 * c, x * y * k - z * s, x * z * k + y * s, x, y, z) == x
  {
  }

  /** Row 1 of Rodrigues' block, applied to its unit axis, gives back y. */
  lemma {:induction false} RodriguesRow1Fixes(x: real, y: real, z: real, s: real, c: real)
    requires x * x + y * y + z * z == 1.0
    ensures var k := 1.0 - c;
      Dot3(y * x * k + z * s, y * y * k + 1.0 * c, y * z * k - x * s, x, y, z) == y
  {
  }

  /** Row 2 of Rodrigues' block, applied to its unit axis, gives back z. */
  lemma {:induction false} RodriguesRow2Fixes(x: real, y: real, z: real, s: real, c: real)
    requires x * x + y * y + z * z == 1.0
    ensures var k := 1.0 - c;
      Dot3(z * x * k - y * s, y * z * k + x * s, z * z * k + 1.0 * c, x, y, z) == z
  {
  }

  /** Rodrigues' block maps its unit axis to itself: the axis is the fixed line of the rotation. */
  lemma {:induction false} RodriguesFixesAxis(x: real, y: real, z: real, s: real, c: real)
    requires x * x + y * y + z * z == 1.0
    ensures var m := RodriguesMatrix(x, y, z, s, c);
      && Dot3(m[Index(0, 0)], m[Index(0, 1)], m[Index(0, 2)], x, y, z) == x
      && Dot3(m[Index(1, 0)], m[Index(1, 1)], m[Index(1, 2)], x, y, z) == y
      && Dot3(m[Index(2, 0)], m[Index(2, 1)], m[Index(2, 2)], x, y, z) == z
  {
    RodriguesRow0Fixes(x, y, z, s, c);
    RodriguesRow1Fixes(x, y, z, s, c);
    RodriguesRow2Fixes(x, y, z, s, c);
  }

  /**
   * The axis-angle constructor about a coordinate axis against the
   * single-axis constructors: it agrees with the x constructor, and with
   * the y and z constructors only for the opposite angle.
   */
  lemma RotationAboutCoordinateAxes(s: real, c: real)
    ensures RotationMatrix(1.0, 0.0, 0.0, 1.0, s, c) == RotationXMatrix(s, c)
    ensures RotationMatrix(0.0, 1.0, 0.0, 1.0, s, c) == RotationYMatrix(-s, c)
    ensures RotationMatrix(0.0, 0.0, 1.0, 1.0, s, c) == RotationZMatrix(-s, c)
  {
  }

  /** Rotation about z by angle c, then about y by angle b, both in the axis-angle orientation. */
  function RotationZYMatrix(sb: real, cb: real, sc: real, cc: real): (m: seq<real>)
    ensures IsMatrix(m)
  {
    [cc * cb, sc * cb, -sb, 0.0,
     -sc, cc, 0.0, 0.0,
     cc * sb, sc * sb, cb, 0.0,
     0.0, 0.0, 0.0, 1.0]
  }

  lemma {:induction false} RotationZYProduct(sb: real, cb: real, sc: real, cc: real)
    ensures Product(RotationZMatrix(-sc, cc), RotationYMatrix(-sb, cb)) == RotationZYMatrix(sb, cb, sc, cc)
  {
    var z, y := RotationZMatrix(-sc, cc), RotationYMatrix(-sb, cb);
    ProductColumn(z, y, 0, cc * cb, sc * cb, -sb, 0.0);
    ProductColumn(z, y, 1, -sc, cc, 0.0, 0.0);
    ProductColumn(z, y, 2, cc * sb, sc * sb, cb, 0.0);
    ProductColumn(z, y, 3, 0.0, 0.0, 0.0, 1.0);
    ProductFromSlots(z, y, RotationZYMatrix(sb, cb, sc, cc));
  }

  lemma {:induction false} RotationZYXColumn1(sa: real, ca: real, sb: real, cb: real, sc: real, cc: real)
    ensures Entry(RotationZYMatrix(sb, cb, sc, cc), RotationXMatrix(sa, ca), 0, 1) == cc * sb * sa - sc * ca
    ensures Entry(RotationZYMatrix(sb, cb, sc, cc), RotationXMatrix(sa, ca), 1, 1) == sc * sb * sa + cc * ca
    ensures Entry(RotationZYMatrix(sb, cb, sc, cc), RotationXMatrix(sa, ca), 2, 1) == cb * sa
    ensures Entry(RotationZYMatrix(sb, cb, sc, cc), RotationXMatrix(sa, ca), 3, 1) == 0.0
  {
  }

  lemma {:induction false} RotationZYXColumn2(sa: real, ca: real, sb: real, cb: real, sc: real, cc: real)
    ensures Entry(RotationZYMatrix(sb, cb, sc, cc), RotationXMatrix(sa, ca), 0, 2) == cc * sb * ca + sc * sa
    ensures Entry(RotationZYMatrix(sb, cb, sc, cc), RotationXMatrix(sa, ca), 1, 2) == sc * sb * ca - cc * sa
    ensures Entry(RotationZYMatrix(sb, cb, sc, cc), RotationXMatrix(sa, ca), 2, 2) == cb * ca
    ensures Entry(RotationZYMatrix(sb, cb, sc, cc), RotationXMatrix(sa, ca), 3, 2) == 0.0
  {
  }

  /** The corrected Euler constructor is the z-y rotation followed by the rotation about x. */
  lemma {:induction false} RotationZYXFromZY(sa: real, ca: real, sb: real, cb: real, sc: real, cc: real)
    ensures Product(RotationZYMatrix(sb, cb, sc, cc), RotationXMatrix(sa, ca)) == RotationZYXMatrix(sa, ca, sb, cb, sc, cc)
  {
    var zy, x := RotationZYMatrix(sb, cb, sc, cc), RotationXMatrix(sa, ca);
    ProductColumn(zy, x, 0, cc * cb, sc * cb, -sb, 0.0);
    RotationZYXColumn1(sa, ca, sb, cb, sc, cc);
    ProductColumn(zy, x, 1, cc * sb * sa - sc * ca, sc * sb * sa + cc * ca, cb * sa, 0.0);
    RotationZYXColumn2(sa, ca, sb, cb, sc, cc);
    ProductColumn(zy, x, 2, cc * sb * ca + sc * sa, sc * sb * ca - cc * sa, cb * ca, 0.0);
    ProductColumn(zy, x, 3, 0.0, 0.0, 0.0, 1.0);
    ProductFromSlots(zy, x, RotationZYXMatrix(sa, ca, sb, cb, sc, cc));
  }

  /**
   * The corrected Euler constructor is the composition of rotations about
   * z by c, y by b and x by a, each in the orientation of the axis-angle
   * constructor (the y and z constructors take the opposite angle).
   */
  lemma {:induction false} RotationZYXIsComposition(sa: real, ca: real, sb: real, cb: real, sc: real, cc: real)
    ensures RotationZYXMatrix(sa, ca, sb, cb, sc, cc) ==
      Product(Product(RotationZMatrix(-sc, cc), RotationYMatrix(-sb, cb)), RotationXMatrix(sa, ca))
  {
    RotationZYProduct(sb, cb, sc, cc);
    RotationZYXFromZY(sa, ca, sb, cb, sc, cc);
  }

  /**
   * Slot 5 as written breaks the composition: for a = b = c = 90 degrees
   * (every sine 1, every cosine 0) it holds 0 where the composition
   * (RotationZYXIsComposition) holds 1.
   */
  lemma RotationZYXAsWrittenIsNotComposition()
    ensures RotationZYXAsWritten(1.0, 0.0, 1.0, 0.0, 1.0, 0.0)[5] == 0.0
    ensures RotationZYXMatrix(1.0, 0.0, 1.0, 0.0, 1.0, 0.0)[5] == 1.0
    ensures RotationZYXAsWritten(1.0, 0.0, 1.0, 0.0, 1.0, 0.0) != RotationZYXMatrix(1.0, 0.0, 1.0, 0.0, 1.0, 0.0)
  {
  }

  /** At the same angles the second column as written is the zero vector, so not a rotation. */
  lemma RotationZYXAsWrittenIsNotOrthonormal()
    ensures !Orthonormal3(RotationZYXAsWritten(1.0, 0.0, 1.0, 0.0, 1.0, 0.0))
  {
    assert ColumnDot(RotationZYXAsWritten(1.0, 0.0, 1.0, 0.0, 1.0, 0.0), 1, 1) == 0.0;
  }
}
