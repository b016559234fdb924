/**
 * bb::mat4, the 4x4 matrix of the rendering library: sixteen entries held in
 * the object and rewritten in place by its methods.  Each method's effect on
 * the entries is stated as a function of MatrixSpec applied to the entries
 * before the call.
 */
module Bb {
  import opened MatrixSpec

  /**
   * dst := a * b, row by row, as the product loop of mat4 computes it
   * (four entries of row i per turn).
   */
  method MultiplyInto(a: array<real>, b: array<real>, dst: array<real>)
    requires a.Length == 16 && b.Length == 16 && dst.Length == 16
    requires dst != a && dst != b
    modifies dst
    ensures dst[..] == Product(a[..], b[..])
  {
    for i := 0 to 4
      invariant forall r, c :: 0 <= r < i && 0 <= c < 4 ==> dst[4 * r + c] == Dot(a[..], b[..], r, c)
    {
      MultiplyRow(a, b, dst, i);
    }
    ProductOf(a[..], b[..], dst[..]);
  }

  /** One turn of the product loop: the four entries of row i of a * b. */
  method MultiplyRow(a: array<real>, b: array<real>, dst: array<real>, i: int)
    requires a.Length == 16 && b.Length == 16 && dst.Length == 16
    requires dst != a && dst != b && 0 <= i < 4
    modifies dst
    ensures forall c :: 0 <= c < 4 ==> dst[4 * i + c] == Dot(a[..], b[..], i, c)
    ensures forall k :: 0 <= k < 16 && !(4 * i <= k < 4 * i + 4) ==> dst[k] == old(dst[k])
  {
    var p, q, u, w := 4 * i, 4 * i + 1, 4 * i + 2, 4 * i + 3;
    dst[p] := a[p] * b[0] + a[q] * b[4] + a[u] * b[8] + a[w] * b[12];
    dst[q] := a[p] * b[1] + a[q] * b[5] + a[u] * b[9] + a[w] * b[13];
    dst[u] := a[p] * b[2] + a[q] * b[6] + a[u] * b[10] + a[w] * b[14];
    dst[w] := a[p] * b[3] + a[q] * b[7] + a[u] * b[11] + a[w] * b[15];
  }

  class Mat4 {
    /** The entries, row by row: entry (i, j) is m[4 * i + j]. */
    const m: array<real>

    ghost predicate Valid() {
      m.Length == 16
    }

    /** The entries as a value. */
    ghost function Value(): Matrix
      reads m
      requires Valid()
    {
      m[..]
    }

    /** The default constructor: all sixteen entries 0. */
    constructor ()
      ensures Valid() && fresh(m)
      ensures forall k :: 0 <= k < 16 ==> m[k] == 0.0
    {
      m := new real[16];
      new;
      FillZero();
    }

    /** The copy constructor. */
    constructor Copy(other: Mat4)
      requires other.Valid()
      ensures Valid() && fresh(m)
      ensures Value() == other.Value()
    {
      m := new real[16];
      new;
      CopyFrom(other.m);
    }

    /** Sets every entry to 0 (the constructor's loop, and the memset of identity). */
    method FillZero()
      requires Valid()
      modifies m
      ensures forall k :: 0 <= k < 16 ==> m[k] == 0.0
    {
      for i := 0 to 16
        invariant forall k :: 0 <= k < i ==> m[k] == 0.0
      {
        m[i] := 0.0;
      }
    }

    /**
     * Copies the first sixteen entries of src, one index at a time; src may be
     * this matrix's own storage.
     */
    method CopyFrom(src: array<real>)
      requires Valid() && src.Length >= 16
      modifies m
      ensures Value() == old(src[..16])
    {
      for i := 0 to 16
        invariant forall k :: 0 <= k < i ==> m[k] == old(src[k])
        invariant forall k :: i <= k < src.Length ==> src[k] == old(src[k])
      {
        m[i] := src[i];
      }
      assert m[..] == old(src[..16]);
    }

    /** Reading entry (i, j); the storage index 4 * i + j must be one of the sixteen. */
    function Get(i: int, j: int): (r: real)
      reads m
      requires Valid() && 0 <= 4 * i + j < 16
      ensures 0 <= i < 4 && 0 <= j < 4 ==> r == At(Value(), i, j)
    {
      m[i * 4 + j]
    }

    /** Writing through the reference operator() returns. */
    method Set(i: int, j: int, x: real)
      requires Valid() && 0 <= 4 * i + j < 16
      modifies m
      ensures Value() == old(Value())[4 * i + j := x]
      ensures 0 <= i < 4 && 0 <= j < 4 ==> At(Value(), i, j) == x
    {
      m[i * 4 + j] := x;
    }

    /** operator= from another matrix. */
    method Assign(other: Mat4)
      requires Valid() && other.Valid()
      modifies m
      ensures Value() == old(other.Value())
    {
      CopyFrom(other.m);
    }

    /** operator= from a float array: its first sixteen entries. */
    method AssignArray(other: array<real>)
      requires Valid() && other.Length >= 16
      modifies m
      ensures Value() == old(other[..16])
    {
      CopyFrom(other);
    }

    /** operator==: true exactly when all sixteen entries agree. */
    method Equals(other: Mat4) returns (r: bool)
      requires Valid() && other.Valid()
      ensures r <==> Value() == other.Value()
    {
      for i := 0 to 16
        invariant forall k :: 0 <= k < i ==> m[k] == other.m[k]
      {
        if m[i] != other.m[i] {
          return false;
        }
      }
      assert m[..] == other.m[..];
      return true;
    }

    /** operator* with a vector: component i is column i times v. */
    method TimesVector(v: Vec4) returns (r: Vec4)
      requires Valid()
      ensures r == Transform(Value(), v)
    {
      var t := new real[4];
      for i := 0 to 4
        invariant forall k :: 0 <= k < i ==> t[k] == ColumnTimes(m[..], k, v)
      {
        t[i] := m[i + 0] * v.x + m[i + 4] * v.y + m[i + 8] * v.z + m[i + 12] * v.w;
      }
      r := Vec4(t[0], t[1], t[2], t[3]);
    }

    /** operator* with a matrix: a new matrix this * other. */
    method Times(other: Mat4) returns (r: Mat4)
      requires Valid() && other.Valid()
      ensures r.Valid() && fresh(r.m)
      ensures r.Value() == Product(Value(), other.Value())
    {
      r := new Mat4();
      MultiplyInto(m, other.m, r.m);
    }

    /** this := with * this, through a temporary. */
    method Multiply(with: Mat4)
      requires Valid() && with.Valid()
      modifies m
      ensures Value() == Product(old(with.Value()), old(Value()))
    {
      var tmp := new real[16];
      MultiplyInto(with.m, m, tmp);
      CopyFrom(tmp);
    }

    method Identity()
      requires Valid()
      modifies m
      ensures Value() == MatrixSpec.Identity()
    {
      FillZero();
      m[0] := 1.0;
      m[5] := 1.0;
      m[10] := 1.0;
      m[15] := 1.0;
      EqualByIndices(m[..], MatrixSpec.Identity());
    }

    method Transpose()
      requires Valid()
      modifies m
      ensures Value() == Transposed(old(Value()))
    {
      var tmp := new real[16] [m[0], m[4], m[8], m[12],
                               m[1], m[5], m[9], m[13],
                               m[2], m[6], m[10], m[14],
                               m[3], m[7], m[11], m[15]];
      TransposedOf(m[..], tmp[..]);
      CopyFrom(tmp);
    }

    method SwapHandedness()
      requires Valid()
      modifies m
      ensures Value() == SwapHanded(old(Value()))
    {
      var tmp := new real[16] [m[0], m[1], -m[2], m[3],
                               m[4], m[5], -m[6], m[7],
                               -m[8], -m[9], m[10], -m[11],
                               m[12], m[13], -m[14], m[15]];
      SwapHandedOf(m[..], tmp[..]);
      CopyFrom(tmp);
    }

    /** Multiplies rows 0, 1 and 2 by s.x, s.y and s.z; row 3 is kept. */
    method Scale(s: Vec3)
      requires Valid()
      modifies m
      ensures Value() == Scaled(old(Value()), s)
    {
      ScaleRow(0, s.x);
      ScaleRow(1, s.y);
      ScaleRow(2, s.z);
      FirstRowsWritten(old(m[..]), ScaledBy(Row(old(m[..]), 0), s.x), ScaledBy(Row(old(m[..]), 1), s.y),
                       ScaledBy(Row(old(m[..]), 2), s.z));
    }

    /** The four compound assignments of scale that multiply row i by f. */
    method ScaleRow(i: int, f: real)
      requires Valid() && 0 <= i < 4
      modifies m
      ensures Value() == WithRow(old(Value()), i, ScaledBy(Row(old(Value()), i), f))
    {
      m[4 * i] := m[4 * i] * f;
      m[4 * i + 1] := m[4 * i + 1] * f;
      m[4 * i + 2] := m[4 * i + 2] * f;
      m[4 * i + 3] := m[4 * i + 3] * f;
      ScaledRowOf(old(m[..]), i, f, m[..]);
    }

    /**
     * Adds t.x times row 0, t.y times row 1 and t.z times row 2 to row 3.  Each
     * of the four compound assignments reads rows 0 to 2 and its own entry of
     * row 3 only, so writing the new row 3 at once has the same effect.
     */
    method Translate(t: Vec3)
      requires Valid()
      modifies m
      ensures Value() == Translated(old(Value()), t)
    {
      var row := Vec4(m[12] + (m[0] * t.x + m[4] * t.y + m[8] * t.z),
                      m[13] + (m[1] * t.x + m[5] * t.y + m[9] * t.z),
                      m[14] + (m[2] * t.x + m[6] * t.y + m[10] * t.z),
                      m[15] + (m[3] * t.x + m[7] * t.y + m[11] * t.z));
      TranslatedRowOf(m[..], t, row);
      SetRow(3, row);
    }

    /** Rotation by the quaternion q: multiplies by the rotation matrix of q. */
    method Rotate(q: Vec4)
      requires Valid()
      modifies m
      ensures Value() == Product(QuaternionMatrix(q), old(Value()))
    {
      var rot := RotationMatrix(q);
      Multiply(rot);
    }

    /** The temporary of rotate: a fresh matrix filled row by row with the rotation matrix of q. */
    static method RotationMatrix(q: Vec4) returns (rot: Mat4)
      ensures rot.Valid() && fresh(rot.m)
      ensures rot.Value() == QuaternionMatrix(q)
    {
      rot := new Mat4();
      ghost var zero := rot.Value();
      var r0, r1 := QuaternionRow(q.x, q.y, q.z, q.w, 0), QuaternionRow(q.x, q.y, q.z, q.w, 1);
      var r2, r3 := QuaternionRow(q.x, q.y, q.z, q.w, 2), QuaternionRow(q.x, q.y, q.z, q.w, 3);
      rot.SetRow(0, r0);
      rot.SetRow(1, r1);
      rot.SetRow(2, r2);
      rot.SetRow(3, r3);
      AllRowsWritten(zero, r0, r1, r2, r3);
    }

    /** Multiplies by a perspective frustum; throws "invalid frustum" first when the guard fails. */
    method Frustum(left: real, right: real, bottom: real, top: real, nearZ: real, farZ: real) returns (r: Outcome)
      requires Valid()
      modifies m
      ensures r == if FrustumInvalid(left, right, bottom, top, nearZ, farZ) then Fail("invalid frustum") else Pass
      ensures r.Fail? ==> Value() == old(Value())
      ensures r.Pass? ==> Value() == Product(FrustumMatrix(left, right, bottom, top, nearZ, farZ), old(Value()))
    {
      var deltaX, deltaY, deltaZ := right - left, top - bottom, farZ - nearZ;
      var frust := new Mat4();

      if nearZ <= 0.0 || farZ <= 0.0 || deltaX <= 0.0 || deltaY <= 0.0 || deltaZ <= 0.0 {
        return Fail("invalid frustum");
      }

      ghost var zero := frust.Value();
      var r0 := Vec4(2.0 * nearZ / deltaX, 0.0, 0.0, 0.0);
      var r1 := Vec4(0.0, 2.0 * nearZ / deltaY, 0.0, 0.0);
      var r2 := Vec4((right + left) / deltaX, (top + bottom) / deltaY, -(nearZ + farZ) / deltaZ, -1.0);
      var r3 := Vec4(0.0, 0.0, -2.0 * nearZ * farZ / deltaZ, 0.0);
      frust.SetRow(0, r0);
      frust.SetRow(1, r1);
      frust.SetRow(2, r2);
      frust.SetRow(3, r3);
      AllRowsWritten(zero, r0, r1, r2, r3);
      Multiply(frust);
      return Pass;
    }

    /** Multiplies by an orthographic projection; throws "invalid ortho" first when an extent is zero. */
    method Ortho(left: real, right: real, bottom: real, top: real, nearZ: real, farZ: real) returns (r: Outcome)
      requires Valid()
      modifies m
      ensures r == if OrthoInvalid(left, right, bottom, top, nearZ, farZ) then Fail("invalid ortho") else Pass
      ensures r.Fail? ==> Value() == old(Value())
      ensures r.Pass? ==> Value() == Product(OrthoMatrix(left, right, bottom, top, nearZ, farZ), old(Value()))
    {
      var deltaX, deltaY, deltaZ := right - left, top - bottom, farZ - nearZ;
      var ortho := new Mat4();

      if deltaX == 0.0 || deltaY == 0.0 || deltaZ == 0.0 {
        return Fail("invalid ortho");
      }

      ortho.Identity();
      ortho.m[0] := 2.0 / deltaX;
      ortho.m[12] := -(right + left) / deltaX;
      ortho.m[5] := 2.0 / deltaY;
      ortho.m[13] := -(top + bottom) / deltaY;
      ortho.m[10] := -2.0 / deltaZ;
      ortho.m[14] := -(nearZ + farZ) / deltaZ;
      OrthoOf(left, right, bottom, top, nearZ, farZ, ortho.m[..]);
      Multiply(ortho);
      return Pass;
    }

    /** Entrywise this * (1 - x) + other * x; other may be this matrix. */
    method Interpolate(other: Mat4, x: real)
      requires Valid() && other.Valid()
      modifies m
      ensures Value() == Interpolated(old(Value()), old(other.Value()), x)
    {
      ghost var target := Interpolated(m[..], other.m[..], x);
      for i := 0 to 16
        invariant forall k :: 0 <= k < i ==> m[k] == target[k]
        invariant forall k :: i <= k < 16 ==> m[k] == old(m[k]) && other.m[k] == old(other.m[k])
      {
        m[i] := m[i] * (1.0 - x) + other.m[i] * x;
      }
      assert m[..] == target;
    }

    /** Overwrites row r with v. */
    method SetRow(r: int, v: Vec4)
      requires Valid() && 0 <= r < 4
      modifies m
      ensures Value() == WithRow(old(Value()), r, v)
    {
      m[r * 4 + 0] := v.x;
      m[r * 4 + 1] := v.y;
      m[r * 4 + 2] := v.z;
      m[r * 4 + 3] := v.w;
      assert m[..] == WithRow(old(m[..]), r, v);
    }
  }
}
