# matrix4 in Dafny

A model of the matrix4 kernel, a JavaScript library of 4x4 matrix
operations (`index.js`, and the older `lib/matrix4.js`). A matrix is a flat
buffer of 16 numbers in column-major order: row `i`, column `j` lives at
slot `i + 4*j`. Nearly every kernel function overwrites the slots of a
caller-supplied buffer `self`.

The project has three modules:

- `ColumnMajor` (`column_major.dfy`): the value level. A matrix is a
  `seq<real>` of length 16. Every kernel operation has a function here
  that gives its result (`IdentityMatrix`, `WithRow`, `Upper3`, `Plus`,
  `Product`, `RotationMatrix`, ...). The kernel's properties are lemmas
  over these functions: the index bijection, row and column round trips,
  the algebra of sums and products, and what the rotation constructors
  build.
- `Matrix4` (`matrix4.dfy`): the buffer level, one method per kernel
  function on `array<real>`, with `modifies` frames. Each `ensures` states
  the whole new contents of the written buffer as a `ColumnMajor` function
  of the old contents. `Get` and `GetValue` are functions, because the
  kernel's `get` and `get_value` only read.
- `LibMatrix4` (`lib_matrix4.dfy`): `create`, `copy` and `zero` from
  `lib/matrix4.js`. Their bodies are the same as in the current kernel, so
  they call the `Matrix4` methods. Client methods there state what a caller
  relies on: copying onto itself, copying twice, and the independence of a
  created buffer.

Modelling decisions:

- Matrix entries are `real`. A Float32Array drops a write outside its
  length and reads `undefined` there. `Matrix4.Set` and `ColumnMajor.Updated`
  model the dropped write. `Matrix4.Get` returns `None` for `undefined`.
- `sin(angle)` and `cos(angle)` are parameters `s` and `c`. For
  `rotation`, the square root of `x*x + y*y + z*z` is a parameter `w`. Its
  precondition says `w` is that root.
- The kernel writes a matrix slot by slot. Each operation that reads an
  operand reads every operand slot before the one write that can reach
  it. So `Matrix4.Store` writes all 16 slots in one simultaneous
  assignment. The preconditions state which operands may share the
  destination. `copy`, `sum`, `diff`, `add`, `sub`, `get_row`, `get_col`,
  `set_col`, `get_upper3`, `set_upper3` and `rotation` allow sharing.
  `prod` and `mul` do not, and neither does the `values` buffer of
  `set_row`.
- `prod` and `mul` compute each slot as the four-term sum the kernel
  writes out (`ColumnMajor.Entry`). `ColumnMajor.ProductEntry` proves that
  sum equal to the entry of the matrix product.

Where the code departs from what its comments describe, the model follows
the code:

- `set_upper3` (index.js:229-243) reads the 3x3 block from a full 16-slot
  matrix `m`, at slots 0-2, 4-6 and 8-10. It writes nine packed values into
  slots 0-8 of `self`. It does not unpack a 9-slot buffer into the 4x4 block.
  `get_upper3` packs the same block column by column: `m[3*c + r] = self[r + 4*c]`.
- `set`, `set_value`, `set_row` and `set_col` raise no error for an index
  outside the buffer. The write is dropped. `set_value(self, 4, 0, v)`
  writes slot 4, which is row 0 of column 1.
- `rotation_y` and `rotation_z` (index.js:690-752) rotate the opposite
  way to `rotation` about the y and z axes. `rotation_x` rotates the same
  way (`ColumnMajor.RotationAboutCoordinateAxes`).

## Model

| member | source | states |
|---|---|---|
| ColumnMajor.Index | index.js:174 | slot `i + 4*j` of row i and column j lies in 0..15 whenever i and j are in 0..3 |
| ColumnMajor.IndexInRange | index.js:174 | for row and column in 0..3, slot `i + 4*j` is in 0..15, and its row and column are recovered by `% 4` and `/ 4` |
| ColumnMajor.IndexOnto | index.js:271 | every slot 0..15 is `i + 4*j` for exactly the row `k % 4` and column `k / 4`, both in 0..3 |
| ColumnMajor.IndexInjective | index.js:174 | two in-range (row, column) pairs share a slot if and only if they are equal |
| ColumnMajor.Updated | index.js:155-159 | a write inside the buffer sets that slot and keeps every other slot; the length never changes |
| ColumnMajor.IdentityMatrix | index.js:121-143 | the identity holds 1 at row i, column i and 0 at every other entry |
| ColumnMajor.ZeroMatrix | index.js:90-112 | all 16 slots are 0 |
| ColumnMajor.Row | index.js:285-292 | the intended `get_row`: entry c of row i is slot `i + 4*c` |
| ColumnMajor.Col | index.js:305-312 | the intended `get_col`: entry c of column j is slot `c + 4*j` |
| ColumnMajor.WithRow | index.js:190-197 | `set_row` as written, the four writes at slots `i + 4*c` in turn, each dropped outside the buffer; it keeps the buffer length, and WithRowWrites and WithRowFrame state which slots change |
| ColumnMajor.WithCol | index.js:210-217 | `set_col` as written, the four writes at slots `c + 4*j` in turn, each dropped outside the buffer; it keeps the buffer length, and WithColWrites and WithColFrame state which slots change |
| ColumnMajor.Upper3 | index.js:324-338 | packed slot `3*c + r` holds entry (r, c) of the matrix, for r, c in 0..2 |
| ColumnMajor.WithRowWrites | index.js:190-197 | after writing row i, slot `i + 4*c` holds `values[c]` wherever it is inside the buffer |
| ColumnMajor.WithRowFrame | index.js:190-197 | writing row i leaves every slot outside slots `i + 4*c` unchanged |
| ColumnMajor.WithColWrites | index.js:210-217 | after writing column j, slot `c + 4*j` holds `values[c]` wherever it is inside the buffer |
| ColumnMajor.WithColFrame | index.js:210-217 | writing column j leaves every slot outside slots `c + 4*j` unchanged |
| ColumnMajor.RowOfWithRow | index.js:190-197 | reading back a row just written gives the written values |
| ColumnMajor.WithRowOfRow | index.js:190-197 | writing back the row just read leaves the matrix as it was |
| ColumnMajor.WithRowKeepsOtherRows | index.js:190-197 | writing row i leaves every other row as it was |
| ColumnMajor.ColOfWithCol | index.js:210-217 | reading back a column just written gives the written values |
| ColumnMajor.WithColOfCol | index.js:210-217 | writing back the column just read leaves the matrix as it was |
| ColumnMajor.WithColKeepsOtherCols | index.js:210-217 | writing column j leaves every other column as it was |
| ColumnMajor.RowColAgree | index.js:270-272 | entry j of row i equals entry i of column j, which is the value at (i, j) |
| ColumnMajor.Plus | index.js:351-373 | every slot of the sum is the sum of the operands' slots, as `sum` and `add` (index.js:455-477) compute it |
| ColumnMajor.Minus | index.js:386-408 | every slot of the difference is the difference of the operands' slots, as `diff` and `sub` (index.js:489-511) compute it |
| ColumnMajor.MinusUndoesPlus | index.js:351-408 | subtracting b from a + b gives a back |
| ColumnMajor.PlusUndoesMinus | index.js:351-408 | adding b to a - b gives a back |
| ColumnMajor.PlusCommutes | index.js:351-373 | a + b equals b + a |
| ColumnMajor.PlusZero | index.js:351-408 | adding or subtracting the zero matrix changes nothing |
| ColumnMajor.MinusSelfIsZero | index.js:386-408 | a - a is the zero matrix |
| ColumnMajor.Product | index.js:421-443 | the matrix product is a 4x4 matrix whose slot `i + 4*j` is the sum over k of a(i, k) * b(k, j); ProductEntry ties it to the kernel's sum |
| ColumnMajor.Entry | index.js:422-440 | the four-term sum that `prod` writes at slot `i + 4*j`; ProductEntry proves it equal to the product's entry |
| ColumnMajor.DotExpand | index.js:421-443 | the sum over k < 4 of a(i, k) * b(k, j) equals the four-term sum the kernel writes out |
| ColumnMajor.ProductEntry | index.js:421-443 | slot `i + 4*j` of the product is the kernel's four-term sum for row i, column j |
| ColumnMajor.ProductLeftUnit | index.js:421-443 | identity times m is m |
| ColumnMajor.ProductRightUnit | index.js:421-443 | m times identity is m |
| ColumnMajor.ProductKeepsLinear | index.js:421-443 | the product of two matrices with bottom row (0, 0, 0, 1) and zero translation has them too |
| ColumnMajor.RotationXMatrix | index.js:653-678 | the rotation about x has bottom row (0, 0, 0, 1) and zero translation |
| ColumnMajor.RotationYMatrix | index.js:690-715 | the rotation about y has bottom row (0, 0, 0, 1) and zero translation |
| ColumnMajor.RotationZMatrix | index.js:727-752 | the rotation about z has bottom row (0, 0, 0, 1) and zero translation |
| ColumnMajor.RotationMatrix | index.js:578-641 | the axis-angle rotation has bottom row (0, 0, 0, 1) and zero translation, and a zero-length axis gives the identity |
| ColumnMajor.RotationZYXMatrix | index.js:766-797 | the corrected Euler z-y-x rotation has bottom row (0, 0, 0, 1) and zero translation |
| ColumnMajor.RotationZYXAsWritten | index.js:766-797 | the Euler rotation as written has bottom row (0, 0, 0, 1) and zero translation |
| ColumnMajor.AxisRotationsAtZero | index.js:653-752 | sine 0 and cosine 1 give the identity for the rotations about x, y and z |
| ColumnMajor.RotationXOrthonormal | index.js:653-678 | when s*s + c*c = 1 the 3x3 block of the rotation about x has orthonormal columns |
| ColumnMajor.RotationYOrthonormal | index.js:690-715 | when s*s + c*c = 1 the 3x3 block of the rotation about y has orthonormal columns |
| ColumnMajor.RotationZOrthonormal | index.js:727-752 | when s*s + c*c = 1 the 3x3 block of the rotation about z has orthonormal columns |
| ColumnMajor.RotationAtZeroAngle | index.js:611-640 | for any axis, sine 0 and cosine 1 give the identity |
| ColumnMajor.RodriguesMatrix | index.js:616-638 | the Rodrigues layout for the scaled axis has bottom row (0, 0, 0, 1) and zero translation |
| ColumnMajor.ScaledAxisIsUnit | index.js:611-614 | for a nonzero axis of length `w`, the axis scaled by 1/w has length 1 |
| ColumnMajor.RodriguesColumn0Norm | index.js:620-622 | for a unit axis and s*s + c*c = 1, column 0 of the Rodrigues block has length 1 |
| ColumnMajor.RodriguesColumn1Norm | index.js:625-627 | for a unit axis and s*s + c*c = 1, column 1 of the Rodrigues block has length 1 |
| ColumnMajor.RodriguesColumn2Norm | index.js:630-632 | for a unit axis and s*s + c*c = 1, column 2 of the Rodrigues block has length 1 |
| ColumnMajor.RodriguesColumns01Orthogonal | index.js:620-627 | for a unit axis and s*s + c*c = 1, columns 0 and 1 of the Rodrigues block are orthogonal |
| ColumnMajor.RodriguesColumns02Orthogonal | index.js:620-632 | for a unit axis and s*s + c*c = 1, columns 0 and 2 of the Rodrigues block are orthogonal |
| ColumnMajor.RodriguesColumns12Orthogonal | index.js:625-632 | for a unit axis and s*s + c*c = 1, columns 1 and 2 of the Rodrigues block are orthogonal |
| ColumnMajor.RodriguesOrthonormal | index.js:616-638 | for a unit axis and s*s + c*c = 1 the Rodrigues block has orthonormal columns |
| ColumnMajor.RotationOrthonormal | index.js:578-641 | for any axis whose length is `w`, and s*s + c*c = 1, the axis-angle rotation has orthonormal columns; this covers the zero-axis identity branch too |
| ColumnMajor.RodriguesRow0Fixes | index.js:620-632 | row 0 of the Rodrigues block applied to its unit axis gives back x |
| ColumnMajor.RodriguesRow1Fixes | index.js:620-632 | row 1 of the Rodrigues block applied to its unit axis gives back y |
| ColumnMajor.RodriguesRow2Fixes | index.js:620-632 | row 2 of the Rodrigues block applied to its unit axis gives back z |
| ColumnMajor.RodriguesFixesAxis | index.js:616-638 | the Rodrigues block maps its unit axis to itself, so the axis is the fixed line of the rotation, whatever the angle |
| ColumnMajor.RotationAboutCoordinateAxes | index.js:611-752 | about the unit x axis `rotation` is `rotation_x`; about the unit y and z axes it is `rotation_y` and `rotation_z` at the opposite angle |
| ColumnMajor.RotationZYMatrix | index.js:766-797 | the closed form of the z rotation then the y rotation, which the Euler constructor extends by the x rotation; RotationZYProduct proves it is that product |
| ColumnMajor.RotationZYProduct | index.js:766-797 | the z rotation times the y rotation, both in the axis-angle orientation, is the closed form of columns 0-3 before the x rotation |
| ColumnMajor.RotationZYXFromZY | index.js:766-797 | the z-y product times the x rotation is the corrected Euler closed form |
| ColumnMajor.RotationZYXIsComposition | index.js:766-797 | the corrected Euler closed form equals rotation about z by c, then y by b, then x by a |
| ColumnMajor.RotationZYXAsWrittenIsNotComposition | index.js:782 | at a = b = c = 90 degrees slot 5 as written is 0 where the composition has 1 |
| ColumnMajor.RotationZYXAsWrittenIsNotOrthonormal | index.js:782 | at those angles the second column as written is zero, so the block is not a rotation |
| Matrix4.Store | index.js:59-81 | every slot of the buffer holds the given matrix afterwards |
| Matrix4.Create | index.js:38-49 | a fresh buffer: the identity without values, otherwise equal to `values` |
| Matrix4.Copy | index.js:59-81 | `self` holds the old contents of `values`; `values` may be `self` |
| Matrix4.Zero | index.js:90-112 | `self` is the zero matrix |
| Matrix4.Identity | index.js:121-143 | `self` is the identity |
| Matrix4.Get | index.js:255-257 | slot i when inside the buffer, `undefined` otherwise |
| Matrix4.GetValue | index.js:270-272 | for row and column in 0..3 the entry at slot `i + 4*j`; `undefined` exactly when that slot is outside the buffer |
| Matrix4.Set | index.js:155-159 | slot i is overwritten when inside the buffer, nothing changes otherwise, and `get` then reads the value back |
| Matrix4.SetValue | index.js:173-177 | the write goes to slot `i + 4*j`; for row and column in 0..3 `get_value` reads the value back and the other 15 entries are unchanged |
| Matrix4.SetRow | index.js:190-197 | `self` is the old contents with row i replaced by `values[0..4]`, written slots outside the buffer dropped; row i reads back as written |
| Matrix4.SetCol | index.js:210-217 | `self` is the old contents with column j replaced by the old `values[0..4]`; column j reads back as written; `values` may be `self` |
| Matrix4.GetRow | index.js:285-292 | `values[0..4]` holds row i of the old `self` and the rest of `values` is unchanged (row i, as intended); `values` may be `self` |
| Matrix4.GetCol | index.js:305-312 | `values[0..4]` holds column j of the old `self` and the rest of `values` is unchanged (column j, as intended); `values` may be `self` |
| Matrix4.GetUpper3 | index.js:324-338 | `m[0..9]` holds the packed 3x3 block of the old `self` and the rest of `m` is unchanged; `m` may be `self` |
| Matrix4.SetUpper3 | index.js:229-243 | `self[0..9]` holds the packed 3x3 block of the 16-slot `m` and slots 9-15 are unchanged |
| Matrix4.Sum | index.js:351-373 | `self` is the old a + b slot by slot; `self` may be a or b |
| Matrix4.Diff | index.js:386-408 | `self` is the old a - b slot by slot; `self` may be a or b |
| Matrix4.Add | index.js:455-477 | `self` is its old contents plus m, the same as `sum(self, self, m)`; m may be `self` |
| Matrix4.Sub | index.js:489-511 | `self` is its old contents minus m, the same as `diff(self, self, m)`; m may be `self` |
| Matrix4.Prod | index.js:421-443 | for `self` distinct from a and b, `self` is the matrix product a * b |
| Matrix4.Mul | index.js:523-565 | `self` is the product of its saved old contents and m, as intended |
| Matrix4.Rotation | index.js:578-641 | `self` is the axis-angle rotation about the old axis, the identity for a zero-length axis |
| Matrix4.RotationX | index.js:653-678 | `self` is the rotation about x |
| Matrix4.RotationY | index.js:690-715 | `self` is the rotation about y |
| Matrix4.RotationZ | index.js:727-752 | `self` is the rotation about z |
| Matrix4.RotationZYX | index.js:766-797 | `self` is the corrected Euler z-y-x rotation |
| Matrix4.MulEntryAsWritten | index.js:544-562 | slot (i, j) of `mul` as written: the first term reads `m`, the other three read `b`; with `b` equal to `m` it is the kernel's four-term product sum |
| Matrix4.MulAsWritten | index.js:544-562 | `mul` as written throws exactly when no `b` is in scope |
| Matrix4.MulAsWrittenWithMIsProduct | index.js:523-565 | with `b` bound to `m` itself, `mul` as written computes self * m |
| Matrix4.MulAsWrittenFails | index.js:544-562 | without `b` it throws; with `b` zero, identity times identity gets 0 at slot 5 instead of 1 |
| Matrix4.GetRowAsWritten | index.js:285-292 | `get_row` as written throws exactly when no `row` is in scope |
| Matrix4.GetRowAsWrittenIgnoresIndex | index.js:286-289 | `get_row` as written returns row `row` whatever index it is given, and throws without `row` |
| Matrix4.GetRowAsWrittenFails | index.js:286-289 | on the identity with `row` bound to 0, asking for row 1 gives row 0 |
| Matrix4.GetColAsWritten | index.js:305-312 | `get_col` as written throws exactly when no `col` is in scope |
| Matrix4.GetColAsWrittenIgnoresIndex | index.js:306-309 | `get_col` as written returns column `col` whatever index it is given, and throws without `col` |
| Matrix4.GetColAsWrittenFails | index.js:306-309 | on the identity with `col` bound to 0, asking for column 1 gives column 0 |
| LibMatrix4.Create | lib/matrix4.js:30-41 | a fresh buffer: the identity without values, otherwise equal to `values` |
| LibMatrix4.Copy | lib/matrix4.js:51-73 | `self` holds the old contents of `values` |
| LibMatrix4.Zero | lib/matrix4.js:82-104 | all 16 slots of `self` are 0 |
| LibMatrix4.CopyOntoItself | lib/matrix4.js:51-73 | `copy(self, self)` leaves `self` unchanged |
| LibMatrix4.CopyTwice | lib/matrix4.js:51-73 | copying the same values twice leaves what copying once leaves |
| LibMatrix4.CreateThenSet | lib/matrix4.js:30-41 | a write to a created buffer changes only that buffer and leaves `values` unchanged |

## Left out

- Float32 rounding, NaN and Infinity: entries are exact reals, so `new Float32Array(values)` rounds nothing and no overflow is modelled.
- `sin`, `cos` and `sqrt` are not evaluated: their values enter as parameters.
- The returned `self`: every method returns nothing, because the kernel's return value is the buffer the caller already holds.
- Buffers of other lengths: the model requires 16 slots for `self` and every matrix operand, except for `set`, `get`, `set_value`, `get_value`, `set_row` and `set_col`, which take any length. A plain JavaScript Array that grows on an out-of-range write is not modelled.
- Matrix4.GetRow: requires a row in 0..3. For every other `i` at least one of the slots `i`, `i + 4`, `i + 8`, `i + 12` lies outside 0..15, so the kernel reads `undefined` there and the Float32Array stores NaN, which is not modelled.
- Matrix4.GetCol: requires a column in 0..3. For every other `j` at least one of the slots `4*j` to `4*j + 3` lies outside 0..15 and reads `undefined`, as for GetRow.
- Matrix4.SetRow: requires `values` distinct from `self`. When they are one buffer, a write can change a slot of `values` that a later step of the kernel reads (row 1 overwrites slot 1 before reading `values[1]`), and that result is not modelled.
- Matrix4.Prod: requires `self` distinct from both operands. With sharing, the kernel overwrites operand slots it has still to read, and that result is not modelled.
- Matrix4.Mul: requires `m` distinct from `self`, for the same reason.
- Matrix4.Rotation: takes the axis length `w` as a parameter. The axis-is-fixed property is proved for the scaled unit axis (ColumnMajor.RodriguesFixesAxis), not restated for the caller's unscaled axis.
- The slot write order: the model writes each matrix in one simultaneous assignment, which agrees with the kernel for every sharing of buffers the preconditions allow.
- The module wrapper and the version strings (index.js:9-21, lib/matrix4.js:9-21): packaging only.
- Transpose, scaling, translation, `frustum`, `perspective` and `ortho`: no source of them is part of this model.

## Findings

| source | as written | input that shows it | evidently intended | confidence | as-written member | corrected member |
|---|---|---|---|---|---|---|
| index.js:544-562 | `mul` reads an undeclared `b` in three of the four terms of every slot | any call with no `b` in scope throws a ReferenceError; with a zero `b` in scope, identity times identity gets 0 at slot 5 | `self := old(self) * m`, reading `m` in every term, from the saved copy of `self` | not executed | Matrix4.MulAsWrittenFails | Matrix4.Mul |
| index.js:286-289 | `get_row` reads an undeclared `row` instead of its argument `i` | `get_row(identity, 1, values)` throws; with `row` bound to 0 it gives row 0 | `values[0..4]` := row `i` | not executed | Matrix4.GetRowAsWrittenFails | Matrix4.GetRow |
| index.js:306-309 | `get_col` reads an undeclared `col` instead of its argument `j` | `get_col(identity, 1, values)` throws; with `col` bound to 0 it gives column 0 | `values[0..4]` := column `j` | not executed | Matrix4.GetColAsWrittenFails | Matrix4.GetCol |
| index.js:782 | slot 5 of `rotation_zyx` is `cos_c*sin_b*sin_a + cos_c*cos_a` | a = b = c = 90 degrees: slot 5 is 0, and the second column is zero | `sin_c*sin_b*sin_a + cos_c*cos_a`, the entry of the z-y-x composition (ColumnMajor.RotationZYXIsComposition) | not executed | ColumnMajor.RotationZYXAsWrittenIsNotComposition | Matrix4.RotationZYX |
