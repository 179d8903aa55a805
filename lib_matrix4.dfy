/**
 * The older copy of the kernel in lib/: `create`, `copy` and `zero`, with
 * the same bodies as the current kernel, so each one hands over to its
 * Matrix4 counterpart. The client methods below state the properties a
 * caller relies on.
 */
module LibMatrix4 {
  import opened ColumnMajor
  import Matrix4

  /** A fresh buffer holding `values`, or the identity when none are given. */
  method Create(values: Option<array<real>>) returns (self: array<real>)
    ensures fresh(self)
    ensures values.None? ==> self[..] == IdentityMatrix()
    ensures values.Some? ==> self[..] == values.value[..]
  {
    self := Matrix4.Create(values);
  }

  /** Overwrites all 16 slots of `self` with those of `values`. */
  method Copy(self: array<real>, values: array<real>)
    requires self.Length == Size && values.Length == Size
    modifies self
    ensures self[..] == old(values[..])
  {
    Matrix4.Copy(self, values);
  }

  method Zero(self: array<real>)
    requires self.Length == Size
    modifies self
    ensures self[..] == ZeroMatrix()
  {
    Matrix4.Zero(self);
  }

  /** Copying a buffer onto itself changes nothing. */
  method CopyOntoItself(self: array<real>)
    requires self.Length == Size
    modifies self
    ensures self[..] == old(self[..])
  {
    Copy(self, self);
  }

  /** Copying the same values twice leaves what copying them once leaves. */
  method CopyTwice(self: array<real>, values: array<real>)
    requires self.Length == Size && values.Length == Size
    modifies self
    ensures self[..] == old(values[..])
  {
    Copy(self, values);
    Copy(self, values);
  }

  /**
   * A buffer created from `values` does not share them: writing one of its
   * slots leaves `values` as they were.
   */
  method CreateThenSet(values: array<real>, k: int, v: real) returns (self: array<real>)
    ensures fresh(self)
    ensures self[..] == Updated(values[..], k, v)
    ensures values[..] == old(values[..])
  {
    self := Create(Some(values));
    Matrix4.Set(self, k, v);
  }
}
