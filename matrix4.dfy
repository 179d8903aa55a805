/**
 * The matrix4 kernel as it works on buffers: every operation overwrites
 * slots of a caller-supplied buffer `self` (or of an output buffer), and
 * each method is specified by a function of module ColumnMajor on the old
 * contents.
 *
 * The kernel writes a whole matrix slot by slot. Each operation that reads
 * an operand reads every operand slot before the one write that could
 * reach it, so the model writes the 16 slots in one simultaneous
 * assignment and states by its preconditions which operands may share the
 * destination.
 *
 * A Float32Array drops writes outside its length and reads `undefined`
 * outside it; `Set` and `Get` model those two rules. Angles enter as their
 * sine and cosine, and the square root of the rotation axis as `w`.
 */
module Matrix4 {
  import opened ColumnMajor

  // ---------------------------------------------------------------------
  // Creation and bulk writes.

  /** Overwrites every slot of `self` at once with the matrix `m`. */
  method Store(self: array<real>, m: seq<real>)
    requires self.Length == |m|
    modifies self
    ensures self[..] == m
  {
    forall k | 0 <= k < self.Length {
      self[k] := m[k];
    }
  }

  /** A fresh buffer holding `values`, or the identity when none are given. */
  method Create(values: Option<array<real>>) returns (self: array<real>)
    ensures fresh(self)
    ensures values.None? ==> self[..] == IdentityMatrix()
    ensures values.Some? ==> self[..] == values.value[..]
  {
    var source := if values.None? then IdentityMatrix() else values.value[..];
    self := new real[|source|](k requires 0 <= k < |source| => source[k]);
  }

  /** Overwrites all 16 slots of `self` with those of `values`. */
  method Copy(self: array<real>, values: array<real>)
    requires self.Length == Size && values.Length == Size
    modifies self
    ensures self[..] == old(values[..])
  {
    Store(self, values[..]);
  }

  method Zero(self: array<real>)
    requires self.Length == Size
    modifies self
    ensures self[..] == ZeroMatrix()
  {
    Store(self, ZeroMatrix());
  }

  method Identity(self: array<real>)
    requires self.Length == Size
    modifies self
    ensures self[..] == IdentityMatrix()
  {
    Store(self, IdentityMatrix());
  }

  // ---------------------------------------------------------------------
  // Single slots.

  /** Slot `i` of the buffer; `undefined` (None) outside it. */
  function Get(self: array<real>, i: int): (r: Option<real>)
    reads self
    ensures r.Some? <==> 0 <= i < self.Length
    ensures r.Some? ==> r.value == self[i]
  {
    if 0 <= i < self.Length then Some(self[i]) else None
  }

  /** Entry at row `i`, column `j`: slot `i + 4*j`. */
  function GetValue(self: array<real>, i: int, j: int): (r: Option<real>)
    reads self
    ensures self.Length == Size && 0 <= i < 4 && 0 <= j < 4 ==> r == Some(self[..][Index(i, j)])
    ensures r.Some? <==> 0 <= Index(i, j) < self.Length
  {
    Get(self, Index(i, j))
  }

  /** Writes slot `i`; a write outside the buffer is dropped. */
  method Set(self: array<real>, i: int, value: real)
    modifies self
    ensures self[..] == Updated(old(self[..]), i, value)
    ensures Get(self, i) == if 0 <= i < self.Length then Some(value) else None
  {
    if 0 <= i < self.Length {
      self[i] := value;
    }
  }

  /** Writes the entry at row `i`, column `j`, and only that entry. */
  method SetValue(self: array<real>, i: int, j: int, value: real)
    modifies self
    ensures self[..] == Updated(old(self[..]), Index(i, j), value)
    ensures self.Length == Size && 0 <= i < 4 && 0 <= j < 4 ==> GetValue(self, i, j) == Some(value)
    ensures forall i', j' :: self.Length == Size && 0 <= i < 4 && 0 <= j < 4 && 0 <= i' < 4 && 0 <= j' < 4 && (i', j') != (i, j) ==>
      GetValue(self, i', j') == old(GetValue(self, i', j'))
  {
    Set(self, Index(i, j), value);
    forall i', j' | self.Length == Size && 0 <= i < 4 && 0 <= j < 4 && 0 <= i' < 4 && 0 <= j' < 4 && (i', j') != (i, j)
      ensures GetValue(self, i', j') == old(GetValue(self, i', j'))
    {
      IndexInRange(i', j');
      IndexInjective(i, j, i', j');
    }
  }

  // ---------------------------------------------------------------------
  // Rows, columns and the upper 3x3 block.

  /** Writes `values[0..4]` into row `i`, slot `i + 4*c` for c = 0..3. */
  method SetRow(self: array<real>, i: int, values: array<real>)
    requires values.Length >= 4 && values != self
    modifies self
    ensures self[..] == WithRow(old(self[..]), i, values[..])
    ensures self.Length == Size && 0 <= i < 4 ==> Row(self[..], i) == values[..4]
  {
    Set(self, i + 0, values[0]);
    Set(self, i + 4, values[1]);
    Set(self, i + 8, values[2]);
    Set(self, i + 12, values[3]);
    if self.Length == Size && 0 <= i < 4 {
      RowOfWithRow(old(self[..]), i, values[..4]);
    }
  }

  /**
   * Writes `values[0..4]` into column `j`, slot `c + 4*j` for c = 0..3.
   * `values` may be `self`: step c reads slot c, and an earlier step c'
   * writes slot c' + 4*j, which is not c because 0 < c - c' < 4.
   */
  method SetCol(self: array<real>, j: int, values: array<real>)
    requires values.Length >= 4
    modifies self
    ensures self[..] == WithCol(old(self[..]), j, old(values[..]))
    ensures self.Length == Size && 0 <= j < 4 ==> Col(self[..], j) == old(values[..4])
  {
    Set(self, 0 + 4 * j, values[0]);
    Set(self, 1 + 4 * j, values[1]);
    Set(self, 2 + 4 * j, values[2]);
    Set(self, 3 + 4 * j, values[3]);
    if self.Length == Size && 0 <= j < 4 {
      ColOfWithCol(old(self[..]), j, values[..4]);
    }
  }

  /** Copies row `i` of `self` into `values[0..4]`; the rest of `values` is kept. */
  method GetRow(self: array<real>, i: int, values: array<real>)
    requires self.Length == Size && 0 <= i < 4
    requires values.Length >= 4
    modifies values
    ensures values[..4] == Row(old(self[..]), i)
    ensures values[4..] == old(values[4..])
  {
    values[0] := self[i + 0];
    values[1] := self[i + 4];
    values[2] := self[i + 8];
    values[3] := self[i + 12];
  }

  /** Copies column `j` of `self` into `values[0..4]`; the rest of `values` is kept. */
  method GetCol(self: array<real>, j: int, values: array<real>)
    requires self.Length == Size && 0 <= j < 4
    requires values.Length >= 4
    modifies values
    ensures values[..4] == Col(old(self[..]), j)
    ensures values[4..] == old(values[4..])
  {
    values[0] := self[4 * j];
    values[1] := self[1 + 4 * j];
    values[2] := self[2 + 4 * j];
    values[3] := self[3 + 4 * j];
  }

  /**
   * Packs the upper-left 3x3 block of `self` into `m[0..9]`. Every slot is
   * read before any write can reach it, so `m` may be `self` itself.
   */
  method GetUpper3(self: array<real>, m: array<real>)
    requires self.Length == Size && m.Length >= 9
    modifies m
    ensures m[..9] == Upper3(old(self[..]))
    ensures m[9..] == old(m[9..])
  {
    forall k | 0 <= k < 9 {
      m[k] := self[Index(k % 3, k / 3)];
    }
  }

  /**
   * Writes the upper-left 3x3 block of the 16-slot matrix `m` packed into
   * slots 0..8 of `self`; slots 9..15 are kept.
   */
  method SetUpper3(self: array<real>, m: array<real>)
    requires self.Length == Size && m.Length == Size
    modifies self
    ensures self[..9] == Upper3(old(m[..]))
    ensures self[9..] == old(self[9..])
  {
    forall k | 0 <= k < 9 {
      self[k] := m[Index(k % 3, k / 3)];
    }
  }

  // ---------------------------------------------------------------------
  // Element-wise arithmetic. Each slot is read and written in one step, so
  // `self` may be either operand.

  method Sum(self: array<real>, a: array<real>, b: array<real>)
    requires self.Length == Size && a.Length == Size && b.Length == Size
    modifies self
    ensures self[..] == Plus(old(a[..]), old(b[..]))
  {
    Store(self, Plus(a[..], b[..]));
  }

  method Diff(self: array<real>, a: array<real>, b: array<real>)
    requires self.Length == Size && a.Length == Size && b.Length == Size
    modifies self
    ensures self[..] == Minus(old(a[..]), old(b[..]))
  {
    Store(self, Minus(a[..], b[..]));
  }

  method Add(self: array<real>, m: array<real>)
    requires self.Length == Size && m.Length == Size
    modifies self
    ensures self[..] == Plus(old(self[..]), old(m[..]))
  {
    Store(self, Plus(self[..], m[..]));
  }

  method Sub(self: array<real>, m: array<real>)
    requires self.Length == Size && m.Length == Size
    modifies self
    ensures self[..] == Minus(old(self[..]), old(m[..]))
  {
    Store(self, Minus(self[..], m[..]));
  }

  // ---------------------------------------------------------------------
  // Products.

  /** `self := a * b`. The operands are read while `self` is written, so neither may be `self`. */
  method Prod(self: array<real>, a: array<real>, b: array<real>)
    requires self.Length == Size && a.Length == Size && b.Length == Size
    requires self != a && self != b
    modifies self
    ensures self[..] == Product(a[..], b[..])
  {
    var left, right := a[..], b[..];
    forall k | 0 <= k < Size {
      self[k] := Entry(left, right, RowOf(k), ColOf(k));
    }
    forall k | 0 <= k < Size
      ensures self[k] == Product(left, right)[k]
    {
      IndexOnto(k);
      ProductEntry(left, right, RowOf(k), ColOf(k));
    }
    assert a[..] == left && b[..] == right;
  }

  /**
   * `self := self * m`, reading `m` where the kernel reads the undeclared
   * `b` (see MulAsWritten). `self` is saved first; `m` may not be `self`.
   */
  method Mul(self: array<real>, m: array<real>)
    requires self.Length == Size && m.Length == Size && self != m
    modifies self
    ensures self[..] == Product(old(self[..]), m[..])
  {
    var saved, operand := self[..], m[..];
    forall k | 0 <= k < Size {
      self[k] := Entry(saved, operand, RowOf(k), ColOf(k));
    }
    forall k | 0 <= k < Size
      ensures self[k] == Product(saved, operand)[k]
    {
      IndexOnto(k);
      ProductEntry(saved, operand, RowOf(k), ColOf(k));
    }
    assert m[..] == operand;
  }

  // ---------------------------------------------------------------------
  // Rotations. `s` and `c` are the sine and cosine of the angle.

  /**
   * Rotation by the angle about `axis[0..3]`; `w` is the length of the axis.
   * The axis is read before `self` is written, so it may share `self`;
   * a zero-length axis gives the identity.
   */
  method Rotation(self: array<real>, s: real, c: real, axis: array<real>, w: real)
    requires self.Length == Size && axis.Length >= 3
    requires w >= 0.0 && w * w == axis[0] * axis[0] + axis[1] * axis[1] + axis[2] * axis[2]
    modifies self
    ensures self[..] == RotationMatrix(old(axis[0]), old(axis[1]), old(axis[2]), w, s, c)
  {
    var x, y, z := axis[0], axis[1], axis[2];
    Store(self, RotationMatrix(x, y, z, w, s, c));
  }

  method RotationX(self: array<real>, s: real, c: real)
    requires self.Length == Size
    modifies self
    ensures self[..] == RotationXMatrix(s, c)
  {
    Store(self, RotationXMatrix(s, c));
  }

  method RotationY(self: array<real>, s: real, c: real)
    requires self.Length == Size
    modifies self
    ensures self[..] == RotationYMatrix(s, c)
  {
    Store(self, RotationYMatrix(s, c));
  }

  method RotationZ(self: array<real>, s: real, c: real)
    requires self.Length == Size
    modifies self
    ensures self[..] == RotationZMatrix(s, c)
  {
    Store(self, RotationZMatrix(s, c));
  }

  /** Euler rotation z-y-x from the sines and cosines of `a`, `b`, `c`; slot 5 as corrected. */
  method RotationZYX(self: array<real>, sa: real, ca: real, sb: real, cb: real, sc: real, cc: real)
    requires self.Length == Size
    modifies self
    ensures self[..] == RotationZYXMatrix(sa, ca, sb, cb, sc, cc)
  {
    Store(self, RotationZYXMatrix(sa, ca, sb, cb, sc, cc));
  }

  // ---------------------------------------------------------------------
  // `mul`, `get_row` and `get_col` as written: each reads a name it does not
  // declare. Such a read takes the binding of that name in the enclosing
  // scope, passed here as an Option; None stands for no binding, where the
  // read throws a ReferenceError before any slot is written.

  /** Slot (i, j) of `mul` as written: `m` in the first term, `b` in the other three. */
  function MulEntryAsWritten(s: seq<real>, m: seq<real>, b: seq<real>, i: int, j: int): (r: real)
    requires IsMatrix(s) && IsMatrix(m) && IsMatrix(b) && 0 <= i < 4 && 0 <= j < 4
    ensures b == m ==> r == Entry(s, m, i, j)
  {
    s[Index(i, 0)] * m[Index(0, j)] + s[Index(i, 1)] * b[Index(1, j)] +
    s[Index(i, 2)] * b[Index(2, j)] + s[Index(i, 3)] * b[Index(3, j)]
  }

  /** The new contents of `self` after `mul(self, m)` as written, None when it throws. */
  function MulAsWritten(s: seq<real>, m: seq<real>, b: Option<seq<real>>): (r: Option<seq<real>>)
    requires IsMatrix(s) && IsMatrix(m) && (b.Some? ==> IsMatrix(b.value))
    ensures r.Some? <==> b.Some?
    ensures r.Some? ==> IsMatrix(r.value)
  {
    match b
    case None => None
    case Some(bv) => Some(seq(Size, k requires 0 <= k < Size => MulEntryAsWritten(s, m, bv, RowOf(k), ColOf(k))))
  }

  /** With `b` bound to `m` itself, `mul` as written computes the product. */
  lemma {:induction false} MulAsWrittenWithMIsProduct(s: seq<real>, m: seq<real>)
    requires IsMatrix(s) && IsMatrix(m)
    ensures MulAsWritten(s, m, Some(m)) == Some(Product(s, m))
  {
    var r := MulAsWritten(s, m, Some(m)).value;
    forall k | 0 <= k < Size
      ensures r[k] == Product(s, m)[k]
    {
      IndexOnto(k);
      ProductEntry(s, m, RowOf(k), ColOf(k));
      assert r[k] == MulEntryAsWritten(s, m, m, RowOf(k), ColOf(k));
    }
    assert r == Product(s, m);
  }

  /**
   * `mul` as written throws when no `b` is in scope, and with a zero `b`
   * it turns the identity times the identity into a matrix with 0 at slot 5.
   */
  lemma MulAsWrittenFails()
    ensures MulAsWritten(IdentityMatrix(), IdentityMatrix(), None).None?
    ensures MulAsWritten(IdentityMatrix(), IdentityMatrix(), Some(ZeroMatrix())).value[5] == 0.0
    ensures IdentityMatrix()[5] == 1.0
  {
    assert MulEntryAsWritten(IdentityMatrix(), IdentityMatrix(), ZeroMatrix(), 1, 1) == 0.0;
  }

  /** Row `row` of `s` as `get_row` as written reads it, whatever `i` is. */
  function GetRowAsWritten(s: seq<real>, i: int, row: Option<int>): (r: Option<seq<real>>)
    requires IsMatrix(s) && (row.Some? ==> 0 <= row.value < 4)
    ensures r.Some? <==> row.Some?
  {
    match row
    case None => None
    case Some(n) => Some([s[n + 0], s[n + 4], s[n + 8], s[n + 12]])
  }

  /** `get_row` as written ignores its index: it returns row `row`, and throws without one. */
  lemma GetRowAsWrittenIgnoresIndex(s: seq<real>, i: int, row: Option<int>)
    requires IsMatrix(s) && (row.Some? ==> 0 <= row.value < 4)
    ensures row.None? ==> GetRowAsWritten(s, i, row).None?
    ensures row.Some? ==> GetRowAsWritten(s, i, row) == Some(Row(s, row.value))
  {
  }

  /** On the identity, `get_row(self, 1, values)` with `row` bound to 0 gives row 0, not row 1. */
  lemma GetRowAsWrittenFails()
    ensures GetRowAsWritten(IdentityMatrix(), 1, Some(0)) == Some([1.0, 0.0, 0.0, 0.0])
    ensures Row(IdentityMatrix(), 1) == [0.0, 1.0, 0.0, 0.0]
  {
  }

  /** Column `col` of `s` as `get_col` as written reads it, whatever `j` is. */
  function GetColAsWritten(s: seq<real>, j: int, col: Option<int>): (r: Option<seq<real>>)
    requires IsMatrix(s) && (col.Some? ==> 0 <= col.value < 4)
    ensures r.Some? <==> col.Some?
  {
    match col
    case None => None
    case Some(n) => Some([s[4 * n], s[1 + 4 * n], s[2 + 4 * n], s[3 + 4 * n]])
  }

  lemma GetColAsWrittenIgnoresIndex(s: seq<real>, j: int, col: Option<int>)
    requires IsMatrix(s) && (col.Some? ==> 0 <= col.value < 4)
    ensures col.None? ==> GetColAsWritten(s, j, col).None?
    ensures col.Some? ==> GetColAsWritten(s, j, col) == Some(Col(s, col.value))
  {
  }

  /** On the identity, `get_col(self, 1, values)` with `col` bound to 0 gives column 0, not column 1. */
  lemma GetColAsWrittenFails()
    ensures GetColAsWritten(IdentityMatrix(), 1, Some(0)) == Some([1.0, 0.0, 0.0, 0.0])
    ensures Col(IdentityMatrix(), 1) == [0.0, 1.0, 0.0, 0.0]
  {
  }
}
